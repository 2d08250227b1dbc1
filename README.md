# ddns: DNS reconciler and change cache in Dafny

This project models the two parts of the `ddns` dynamic-DNS updater's Go source that make decisions:

- **The DNS reconciler** (`dns/cloudflare.go`). `Update` takes one domain name and the address it should resolve to. It normalises the TTL and lists the zones. It picks the first zone whose name is a string suffix of the domain. It lists that zone's records and picks the first record with exactly that name. When no record matches, it creates one. It then always patches the record id it looked up.
- **The change cache** (`cache/cache.go`). This is the snapshot of the last addresses and the config file's modification time. It is kept in one file and decides whether any DNS call is needed.

Modules:

- `Wrappers` (wrappers.dfy): `Option`, `Result` (a value or an error message), `Outcome` (what a Go function returning only `error` gives back), and `Eval` (returns or panics).
- `Search` (wrappers.dfy): `First`, the first-match-wins linear search. The source's `for ... range` loops with early return do this.
- `CloudflareApi` (cloudflare_api.dfy): the provider as a `Provider` class. Its fields are:
  - the zones;
  - the records of each zone;
  - per-endpoint faults;
  - the id it will give a new record;
  - an append-only `log` of calls (`ListZones`, `ListRecords(zone)`, `Create(zone, payload)`, `Patch(zone, record, payload)`).

  A listing reply is `Success(results)` or `Failure(errors)`, or the request fails with a cause (`Unreachable`). A create or patch reply keeps only its `success` flag.
- `Cloudflare` (cloudflare.dfy): the Go functions `Update`, `getZoneId`, `getRecordId`, `createRecord` and `updateRecord`, as module-level methods of `Cloudflare` that take the `Provider` as a parameter.
  - The two selection loops are methods with loop invariants, proved against the functions `ZoneChoice` and `RecordChoice`.
  - `Update` is proved against `Reconcile`. This function gives the calls a run makes, the error it returns and the provider state it leaves. The lemmas below are proved about it.
- `ChangeCache` (cache.dfy):
  - `Cache` is a value.
  - `NeedUpdate` is a function. A nil mod-time that it dereferences gives an explicit `Panics`.
  - The cache file is a `CacheFile` class with `disk: Option<Cache>` (None when the file is missing), plus the read and write errors the file system would report.
  - `Load` and `Update` are its methods. The address lookups enter `Update` as `Result<string>` inputs, and the mod-time is an `Option<int>` instant.

Behaviour kept from the code:

- After a create, the patch goes to the record id looked up *before* the create, which is `""`. It does not go to the new record's id. One might expect the patch to go to the created record; the code patches the id looked up before the create. In the provider model, a patch of `""` changes nothing (`StalePatchTargetsNothing`).
- `NeedUpdate` compares mod-times only when both addresses match. It then dereferences both pointers. When no config file is given, the mod-time is nil. So every run after the first whose addresses are unchanged panics (`SecondRunPanics`). This is kept as the code behaves.

What the provider does with a create or a patch is this model's own assumption about the provider, not something the source states:
- A create that reaches the provider appends a record with the provider's next id.
- A patch rewrites the first record with the patched id, if there is one.

`ReconcileConverges` is proved under that assumption.

## Model

| member | source | states |
|---|---|---|
| `Cloudflare.NormalizeTtl` | dns/cloudflare.go:12-15 | a TTL of 0 becomes 1 (automatic), any other TTL is unchanged, and the result is never 0 |
| `Cloudflare.ZoneChoice` | dns/cloudflare.go:52-59 | a zone is found exactly when some zone name is a string suffix of the domain. The id returned is that of the first such zone in provider order. Otherwise the error is "DNS error: Fail to find the zone." |
| `Cloudflare.SelectZone` | dns/cloudflare.go:52-59 | the scan over the zone listing with early return yields exactly `ZoneChoice` |
| `Cloudflare.RecordChoice` | dns/cloudflare.go:78-85 | the id of the first record whose name equals the domain, whatever its type; `""` when none matches |
| `Cloudflare.SelectRecord` | dns/cloudflare.go:78-85 | the scan over the record listing with early return yields exactly `RecordChoice` |
| `Cloudflare.GetZoneId` | dns/cloudflare.go:37-60 | logs exactly one zone listing and returns the request's own error, "DNS error: " + the first error message of a rejected listing, or the selected zone |
| `Cloudflare.GetRecordId` | dns/cloudflare.go:62-86 | logs exactly one record listing of that zone and returns the request error, the provider's first error message, or the selected record id (`""` when absent, not an error) |
| `Cloudflare.CreateRecord` | dns/cloudflare.go:96-108 | logs one create with the payload built from its arguments; fails only when the request itself fails, whatever `success` says |
| `Cloudflare.UpdateRecord` | dns/cloudflare.go:110-122 | logs one patch of the given zone and record id with its payload; fails only when the request itself fails |
| `Cloudflare.Update` | dns/cloudflare.go:11-35 | the log grows by exactly the calls of `Reconcile`, the error returned and the new provider state are those of `Reconcile` |
| `Cloudflare.ZoneListingRejected` | dns/cloudflare.go:45-50 | a rejected zone listing ends the run with "DNS error: " + its first error message, after the zone listing alone, with the provider unchanged |
| `Cloudflare.NoZoneMatches` | dns/cloudflare.go:52-59 | with no suffix-matching zone the run makes only the zone listing and fails with the fixed zone error |
| `Cloudflare.RecordListingRejected` | dns/cloudflare.go:71-76 | a rejected record listing ends the run after the two listings, with "DNS error: " + its first message; no create, no patch |
| `Cloudflare.ExistingRecordIsPatchedOnly` | dns/cloudflare.go:27-34 | when a record has the domain's name and its id is non-empty, the calls are the two listings and one patch of the first such record's id; no create is ever made |
| `Cloudflare.MissingRecordIsCreatedThenPatched` | dns/cloudflare.go:22-34 | when no record has the name and the create request does not fail, the calls are the two listings, a create, then a patch of record id `""`. The run's result is that patch's request outcome |
| `Cloudflare.FailedCreateSkipsPatch` | dns/cloudflare.go:28-31 | a create whose request fails ends the run with that error; no patch is issued and the provider is unchanged |
| `Cloudflare.PayloadsAgree` | dns/cloudflare.go:28-34 | every create and patch of a run carries the same body: the given type, name and content, `proxied` false, and the normalised TTL |
| `Cloudflare.OutcomeIgnoresWriteAcks` | dns/cloudflare.go:96-122 | a run succeeds exactly when both lookups succeed and no create or patch request fails. A `success: false` answer to a create or patch does not make it fail |
| `Cloudflare.StalePatchTargetsNothing` | dns/cloudflare.go:22-34 | after a create, the last call patches record id `""`. With the provider's ids non-empty that patch changes nothing, so the state is what the create left |
| `Cloudflare.ReconcileConverges` | dns/cloudflare.go:11-35 | against a provider that answers every request, a run succeeds and leaves the first record of that name with the desired type and content. Running again with the same inputs issues a single patch and changes nothing |
| `Cloudflare.SuffixMatchIgnoresLabels` | dns/cloudflare.go:54-55 | the zone match is not label-aware: "notexample.com" falls in zone "example.com" |
| `Cloudflare.FirstZoneWinsOverLongest` | dns/cloudflare.go:52-56 | the first suffix match is chosen, not the longest ("b.com" listed before "a.b.com" wins for "x.a.b.com") |
| `CloudflareApi.Provider.GetZones` | dns/cloudflare.go:40 | the zone listing request: appended to the log, answered from the provider's zones or its fault for that endpoint |
| `CloudflareApi.Provider.GetRecords` | dns/cloudflare.go:66 | the record listing request of one zone: appended to the log, answered from that zone's records or its fault |
| `CloudflareApi.Provider.PostRecord` | dns/cloudflare.go:106 | the create request: appended to the log; the provider state becomes `AfterCreate` |
| `CloudflareApi.Provider.PatchRecord` | dns/cloudflare.go:120 | the patch request: appended to the log; the provider state becomes `AfterPatch` |
| `ChangeCache.NeedUpdate` | cache/cache.go:41-43 | returns false exactly when the cached IPv4, IPv6 and mod-time all equal the candidates. It returns true when an address differs or two present mod-times differ. It panics when both addresses match and either mod-time is nil |
| `ChangeCache.SecondRunPanics` | cache/cache.go:21-76 | starting with no cache file and no config file (nil mod-time), a first run with a non-empty IPv4 address writes the snapshot and reports an update; after loading it again, a second run with the same lookups panics on the nil mod-time |
| `ChangeCache.Candidate` | cache/cache.go:46-60 | a disabled family contributes `""` and its lookup is not consulted; an enabled one contributes its lookup's result |
| `ChangeCache.CacheFile.Write` | cache/cache.go:74 | a write replaces the whole snapshot, or reports the write error and leaves the file as it was |
| `ChangeCache.CacheFile.Load` | cache/cache.go:21-39 | a missing file is created holding the empty snapshot (empty addresses, nil mod-time), which is returned. It returns the write error if creating fails. An existing file's snapshot is returned, or its read error unchanged |
| `ChangeCache.CacheFile.Update` | cache/cache.go:45-76 | the IPv4 lookup is consulted before the IPv6 one, and either's error is returned with `updated` false and the file untouched. A panic of `NeedUpdate` is propagated. No change means `updated` false and no write. Otherwise `updated` is true even if the write fails, and the file becomes exactly `{ipv4, ipv6, modTime}` |
| `ChangeCache.UpdateThenLoad` | cache/cache.go:66-75 | after an update that rewrote the snapshot the next `Load` returns exactly the candidate snapshot; after one that did not, it returns the old one |

## Left out

- `dns/api.go` (`request`): building the HTTP request, the `Content-Type` and `Authorization` headers, sending it and decoding JSON. These are replaced by the provider's replies. The bearer token parameter of `Update` only feeds that header, so it is not modelled.
- Response shapes: the source uses unchecked type assertions, which panic on a malformed body. The model's typed replies cannot be malformed. The one shape condition it keeps is that a rejected listing names at least one error (`WellFormed`); the source reads `errors[0]` without checking.
- `json.Marshal` of the payload cannot fail for this plain struct, so its error branches are not modelled (dns/cloudflare.go:99-102, 113-116).
- `json.Marshal` of a `Cache` is assumed not to fail (cache/cache.go:24-27, 70-73). It can fail only for a mod-time outside the years 0 to 9999. In that case cache.go:70-73 returns `(true, err)` without writing, which the model does not capture. The same goes for `omitempty` dropping: `proxied: false` never reaches the wire.
- The Go JSON round trip of a `Cache`, including RFC 3339 time encoding, is taken to be the identity. `time.Time` is an integer instant, which `Equal` compares.
- `Load`: an existing file that fails to decode is folded into its read error. The partly decoded `Cache` the source returns next to that error is not modelled, because the caller treats the error as fatal.
- Write failures: a failed `os.WriteFile` is modelled as leaving the file as it was. A write that truncates the file and then fails is not modelled.
- `address/address.go` (local socket and HTTP address lookup through an optional proxy) is network I/O. Its results enter `CacheFile.Update` as inputs.
- `config/config.go` (flags, config file, `os.Stat`) and `main.go` (orchestration, per-domain loop, logging, `log.Fatal`) are I/O and plumbing, not part of this model.
