# conoha-dns core, modelled in Dafny

A model of the logic under the HTTP calls of `conoha-dns`, a command-line
client for the ConoHa DNS API. It covers three pieces:

- name normalisation (`utils.py`): domain names get a trailing dot, and
  record names are qualified under their zone;
- short ids (`id_converter.py`): the first eight hex characters of a uuid's
  xxh64 digest, and the first-match lookup from a short id back to a uuid;
- the domain and record managers (`domain.py`, `record.py`): the
  domain listing that is fetched once and cached, lookup of a domain by
  name, the request bodies of add and update, and the
  resolve-then-mutate flow of delete and update.

Every command is a total function. Its inputs are the server's replies and
the already-resolved domain. Its result is an `Exchange` or `Step` value
holding the requests it sent, in order, and its outcome (`Ok`, or an
`Error`: `IdNotFound`, `DomainNotFound` or `ApiFailure`). The `Error`
stands for the `ValueError` or `RequestException` that the source catches
and prints. Request bodies are maps from key to JSON value, so the model
shows which keys are present, not only their values.

Files and modules:

| file | module | models |
|---|---|---|
| `wrappers.dfy` | `Wrappers` | `Option` and `Result` |
| `search.dfy` | `Search` | first-match linear search |
| `names.dfy` | `Names` | `utils.py` normalisation |
| `short_ids.dfy` | `ShortIds` | `id_converter.py` |
| `gateway.dfy` | `Gateway` | the client interface: requests, replies, paths, errors |
| `domains.dfy` | `Domains` | `domain.py` |
| `records.dfy` | `Records` | `record.py` |

The xxh64 hash comes from a foreign library, so every operation that needs
it takes it as a parameter `hash: string -> string`. A property that
depends on the digest's shape (16 lowercase hex characters) states that
shape as a premise.

Three behaviours of the code that a reader might not expect:

- Record-name normalisation is not idempotent. A normalised name ends in a
  dot, so the plain suffix test against the dot-stripped zone fails, and
  the zone is appended again. `Names.RecordNameIdempotentIffEmptyZone`
  proves that re-normalising leaves a name unchanged exactly when the
  stripped zone is empty. `Records.UpdateRequalifiesNormalizedName` proves
  the consequence: an update that does not rename a record still rewrites
  an already normalised name.
- domain.py resolves a domain only by its normalised name; it has no
  short-id lookup for domains.
- The not-found failure names the normalised name (domain.py:24), not the
  name as typed: `DomainNotFound(NormalizeDomain(name))`.

## Model

| member | source | states |
|---|---|---|
| `Names.NormalizeDomain` | src/conoha_dns_cli/utils.py:4-8 | the result always ends in a dot; a name already ending in a dot is returned unchanged, any other gains exactly one dot |
| `Names.NormalizeDomainIdempotent` | src/conoha_dns_cli/utils.py:6-8 | normalising a domain name twice is the same as normalising it once |
| `Names.StripTrailingDots` | src/conoha_dns_cli/utils.py:15 | `rstrip('.')`: the result is a prefix of the input that does not end in a dot, and every character cut off is a dot |
| `Names.NormalizeRecordName` | src/conoha_dns_cli/utils.py:10-19 | the result ends in a dot; `@` gives the normalised domain; any other name ends up ending with the stripped zone followed by a dot |
| `Names.ApexIsNormalizedDomain` | src/conoha_dns_cli/utils.py:12-13 | the record name `@` normalises to the normalised domain name |
| `Names.SuffixNameOnlyGainsDot` | src/conoha_dns_cli/utils.py:15-19 | a name other than `@` that already ends with the stripped zone, compared as a plain string suffix, only gets a trailing dot |
| `Names.OtherNameIsQualified` | src/conoha_dns_cli/utils.py:15-19 | a name other than `@` that does not end with the stripped zone becomes `name + "." + zone + "."` |
| `Names.EmptyZoneOnlyAddsDot` | src/conoha_dns_cli/utils.py:15-19 | when the domain name is empty or all dots, the stripped zone is empty and every name other than `@` only gets a trailing dot |
| `Names.RecordNameIdempotentIffEmptyZone` | src/conoha_dns_cli/utils.py:12-19 | normalising an already normalised record name changes it again if and only if the stripped zone is non-empty |
| `Names.NotIdempotentWitness` | src/conoha_dns_cli/utils.py:15-19 | under zone `example.com.`, the already normalised name `test.example.com.` becomes `test.example.com..example.com.` |
| `Names.NormalizingTwiceDiffers` | src/conoha_dns_cli/utils.py:15-19 | normalising `test` under `example.com.` twice differs from normalising it once |
| `Names.ApexExample` | src/conoha_dns_cli/utils.py:12-13 | `@` under `example.com` gives `example.com.` |
| `Names.LabelExample` | src/conoha_dns_cli/utils.py:15-19 | `test` under `example.com` gives `test.example.com.` |
| `Names.QualifiedExamples` | src/conoha_dns_cli/utils.py:15-19 | `test.example.com` under `example.com.` gives `test.example.com.`; `notexample.com` under `example.com` is treated as already qualified and gives `notexample.com.` |
| `Search.FirstIndex` | src/conoha_dns_cli/id_converter.py:9-12 | returns the first index whose element satisfies the test; returns none if and only if no element does |
| `ShortIds.ShortId` | src/conoha_dns_cli/id_converter.py:3-5 | the short id is a prefix of the digest, at most eight characters long; a well-formed xxh64 digest gives exactly eight lowercase hex characters |
| `ShortIds.FindFullUuid` | src/conoha_dns_cli/id_converter.py:7-12 | on success, returns the uuid at the first position whose short id equals the query; fails with the query if and only if no uuid matches |
| `ShortIds.FindFullUuidScan` | src/conoha_dns_cli/id_converter.py:9-12 | the early-return loop agrees with the first-match lookup on every input |
| `ShortIds.EmptyListingNeverResolves` | src/conoha_dns_cli/id_converter.py:9-12 | an empty listing always fails with the not-found error |
| `ShortIds.ListedUuidResolves` | src/conoha_dns_cli/id_converter.py:9-11 | querying the short id of the uuid at position k always succeeds, with the uuid at the first position m <= k sharing that short id; so on a collision the first listed wins, and without an earlier collision the result is the uuid at k |
| `ShortIds.MalformedQueryNeverMatches` | src/conoha_dns_cli/id_converter.py:5-11 | when every digest is well formed, a query that is not eight lowercase hex characters (an upper-case one, say) never matches |
| `Gateway.ListedItems` | src/conoha_dns_cli/domain.py:15 | a response without the listing key yields the empty list; otherwise the listed items |
| `Gateway.RecordPathInjective` | src/conoha_dns_cli/record.py:78 | under one domain, distinct record uuids give distinct record paths (used to show that a delete or put names exactly the resolved record) |
| `Domains.DomainManager.FetchAll` | src/conoha_dns_cli/domain.py:12-15 | the stateful cached fetch: returns the listing and the requests of `FetchAllDomains` on the manager's previous cache, and leaves the manager holding the cache `FetchAllDomains` produces |
| `Domains.FetchAllDomains` | src/conoha_dns_cli/domain.py:12-15 | a filled cache answers with no request and stays as it is; an empty cache sends one GET; the listing is returned exactly when the cache ends filled, and then it is the cached listing; a failed fetch leaves the cache empty |
| `Domains.FilledCacheIsFinal` | src/conoha_dns_cli/domain.py:12-15 | once the cache is filled, every later fetch sends nothing and returns the cached listing |
| `Domains.ListingFetchedOnce` | src/conoha_dns_cli/domain.py:12-15 | over any run of fetches, after one succeeds every later one sends no request and returns the same listing |
| `Domains.FindDomainId` | src/conoha_dns_cli/domain.py:17-24 | returns the uuid of the first listed domain whose name equals the normalised input; fails, naming the normalised input, if and only if no listed name matches |
| `Domains.GetDomainIdFromName` | src/conoha_dns_cli/domain.py:17-24 | sends what the cached fetch sends; a failed fetch is an API failure with its status; a found uuid belongs to the first cached domain with the normalised name; once the listing is in hand, it fails if and only if no name matches, with the not-found error naming the normalised input |
| `Domains.LookupIgnoresTrailingDot` | src/conoha_dns_cli/domain.py:19-23 | looking up a name and looking up its normalised form give the same result, so `example.com` and `example.com.` agree |
| `Domains.ResolutionExample` | src/conoha_dns_cli/domain.py:17-24 | a listing holding `example.com.` resolves `example.com` and `example.com.` to its uuid, and `nosuch.com` fails naming `nosuch.com.` |
| `Domains.AddDomainPayload` | src/conoha_dns_cli/domain.py:38-41 | the body has exactly the keys `name` and `email`; the name is the normalised name and ends in a dot |
| `Domains.AddDomain` | src/conoha_dns_cli/domain.py:38-47 | sends exactly one POST of that body to `/v1/domains`, leaves the cache untouched, and succeeds exactly when the server answers |
| `Domains.DeleteDomain` | src/conoha_dns_cli/domain.py:49-56 | sends a DELETE if and only if name resolution succeeded, and then only for the resolved uuid, after the fetch; succeeds exactly when resolution and the delete both succeed, a 204 included; a failed DELETE is an API failure with its status |
| `Domains.DeleteTargetsNamedDomain` | src/conoha_dns_cli/domain.py:51-53 | every DELETE sent targets the uuid of a domain in the filled cache whose name is the normalised input |
| `Records.GetAllRecords` | src/conoha_dns_cli/record.py:14-15 | sends one GET to the domain's records; a reply without `records` yields the empty list; an HTTP error is an API failure |
| `Records.ResolveRecordId` | src/conoha_dns_cli/record.py:90-91 | sends one GET of the records; a failed GET is an API failure with its status; a resolved uuid is that of the first listed record whose short id is the query; on a listing it fails with the query if and only if no record matches |
| `Records.EmptyRecordListingFails` | src/conoha_dns_cli/record.py:74-75 | an empty record listing, or a reply without `records`, fails with the not-found error and nothing else |
| `Records.AddRecordPayload` | src/conoha_dns_cli/record.py:59-62 | the body has exactly the keys `name`, `type`, `data` and `ttl`; the name is the record name normalised under the domain, so it ends in a dot, and unless it is `@` it ends with the stripped zone and a dot; the others are the given values |
| `Records.AddRecord` | src/conoha_dns_cli/record.py:55-68 | without a resolved domain, sends nothing; otherwise sends exactly one POST of that body to the domain's records, and a failed POST is an API failure with its status |
| `Records.UpdatePayload` | src/conoha_dns_cli/record.py:96-109 | the key set is exactly `name`, `type`, `data`, `description` and `priority`, plus `ttl` if and only if the merged ttl is non-null; a present ttl is never null; the name ends in a dot |
| `Records.UpdateKeepsUnspecifiedFields` | src/conoha_dns_cli/record.py:101-105 | type, data and ttl without an override keep the current values, and ttl is present exactly when the record has one; description and priority are always copied, null included |
| `Records.UpdateAppliesOverrides` | src/conoha_dns_cli/record.py:101-103 | a given override wins, even an empty string or a zero ttl |
| `Records.UpdateRenormalizesName` | src/conoha_dns_cli/record.py:96-97 | the name sent is the new name, or else the current name, normalised against the domain |
| `Records.UpdateRequalifiesNormalizedName` | src/conoha_dns_cli/record.py:96-97 | without a new name, a record whose name is already normalised under a non-empty zone still gets a changed name |
| `Records.UpdateRecord` | src/conoha_dns_cli/record.py:86-119 | writes if and only if the domain, the record id and the current record all resolved; then sends GET records, GET record, PUT of the merged body to that record, in that order; when the record id does not resolve it sends only the records GET and ends with that resolution's error; a failed GET of the current record or a failed PUT is an API failure with its status |
| `Records.DeleteRecord` | src/conoha_dns_cli/record.py:70-81 | deletes if and only if the domain and the record id resolved; then sends GET records, then DELETE of that record; a 204 counts as success; when the record id does not resolve it sends only the records GET and ends with that resolution's error; a failed DELETE is an API failure with its status |
| `Records.MutationTargetsQueriedRecord` | src/conoha_dns_cli/record.py:74-78 | the record written to is a listed record of the domain whose short id is the query, no earlier listed record has that short id, and the record path written to names no other record id |

## Left out

- `client.py`: the HTTP verbs, `raise_for_status`, token acquisition from
  the environment or by password grant, writing the token to `.env`, and
  the header cache. This is network and file I/O. A reply is an input: a
  decoded body or an HTTP error status. A DELETE answered with 204 (the
  client returns `None`) is a success like any other answer.
- `main.py`: argument parsing and dispatch. The update guard at main.py:78
  tests truthiness where `update_record` tests `is not None`. This is
  noted only in a comment on `Records.Overrides`.
- Output: `list_domains`, `list_records`, table layout, CSV and every
  message printed. They are presentation on standard output.
- `handle_api_error` (utils.py:21-34): it only prints the error.
- xxh64 itself: it is a foreign library, so the hash is a parameter.
- `get_domain_id` and `get_domain_name_from_id`: record.py calls them, but
  domain.py does not define them. They are not part of this model. Each
  record command takes the resolved domain (its uuid and name), or the
  resolution failure, as an input.
- Crashes the source does not catch: a KeyError from an item missing
  `uuid`, `name`, `type` or `data`, and a listing key present with a
  `null` value. The datatypes always have these fields, and a present
  listing key always holds a list.
- `Domains.FetchAllDomains`: `lru_cache(maxsize=1)` on the method is
  shared by all instances and keyed by `self`. The model gives each
  manager its own cache. This is the same thing when a process has one
  manager, which is the case in main.py.
