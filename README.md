# Claim registry API: query engine, syncer snapshot and claim endpoints

This project models the core of a small read-only HTTP service that serves a
"claim registry". The registry is a YAML file, `claims/registry.yaml`, kept in
a Git repository. A syncer fetches the file over HTTP from the raw-content
host, decodes it, and publishes the result as an in-memory snapshot. It does
this once at start-up and again on every tick of a background loop. Two
endpoints answer from that snapshot. One lists the claims, with optional
exact-match filters. The other returns one claim by name.

The model has five modules, one per source file (plus shared wrappers):

- `RegistryTypes` (`types.dfy`) is `internal/registry/types.go`. It holds the
  document (`ClaimRegistry`: apiVersion, kind and the claims in file order)
  and the ten-string `ClaimEntry`. Each field is a plain `string`, so a field
  missing from the file is `""`. Nothing makes names unique.
- `Registry` (`registry.dfy`) is `internal/registry/registry.go`. `FindEntry`
  and `FilterEntries` are methods with loops, the same loops the Go code has.
  Each is proved equal to a recursive specification function (`FirstMatch`,
  `Filter`). The lemmas prove what those functions promise: the first match
  wins, the filter is a conjunction of wildcard criteria, and the result is an
  order-preserving subsequence that only shrinks when a criterion is added.
  `ParseData` takes the YAML decoder as a parameter, `unmarshal`.
- `Sync` (`sync.dfy`) is `internal/sync/syncer.go`. It models the config
  defaults, the URL, the request with its `Authorization` header, and `fetch`
  as a pure function of the configuration and an `Environment`. The
  environment supplies whether a request can be built, the network round trip
  and the YAML decoder. `Syncer` is a class with a `registry` snapshot field
  and a `loop` state. Its methods are `InitialSync`, one `Tick` of the
  background loop, `RunLoop` (the goroutine's `for`/`select` over a sequence
  of events), `Start` and `Stop`. `SnapshotAfter` folds the snapshot over a
  run of fetch outcomes. The lemmas about it prove that failed cycles never
  change the snapshot, that the last successful fetch wins, and that a
  published snapshot is never cleared.
- `Api` (`handlers.dfy`) is `internal/api/handlers.go`. `listClaims` and
  `getClaim` are pure functions. Each maps the snapshot (present or absent),
  the request's parameters and the query engine's answer to a `Reply`: the
  Content-Type header, the status code and a body. The body is an error
  object, one entry, or the list envelope.
- `Scenarios` (`scenarios.dfy`) restates the repository's Go tests over the
  model. The registry and handler tests use a three-claim document, and the
  syncer tests a two-claim one; the scenarios do the same.

Two facts about the code shape the model. First, `NewSyncer` validates
nothing: it fills in the four defaults and keeps an empty repository and a
negative interval as given. The check that the repository is set is in
cmd/server.go, before the syncer is built. Second, both handlers check for an
absent snapshot before they call `FindEntry` or `FilterEntries`, so the query
operations are modelled on a present document.

## Model

| member | source | states |
|---|---|---|
| `Registry.ParseData` | internal/registry/registry.go:15-21 | decoding succeeds exactly when the YAML decoder does and returns its document unchanged; a decoder failure becomes a "parsing registry data" error carrying the decoder's message |
| `Registry.FirstMatch` | internal/registry/registry.go:24-31 | a returned index holds a claim whose name equals the query exactly, and no earlier claim has that name; nothing is returned exactly when no claim has the name |
| `Registry.FirstMatchIsEarliest` | internal/registry/registry.go:25-29 | when names repeat, the lookup answers with the earliest claim of that name |
| `Registry.FindEntry` | internal/registry/registry.go:24-31 | the early-return scan returns the position of the first exact match, or none, exactly as `FirstMatch` specifies |
| `Registry.Accepts` | internal/registry/registry.go:38-49 | one criterion accepts a field exactly when its `continue` guard does not fire: an empty criterion accepts anything, otherwise the field must equal it |
| `Registry.Matches` | internal/registry/registry.go:38-49 | an entry matches exactly when none of the four `continue` guards (category, template, status, source) fires |
| `Registry.Filter` | internal/registry/registry.go:35-53 | the result is no longer than the claims, and an entry is in it exactly when it is a claim and every non-empty criterion (category, template, status, source) equals the matching field |
| `Registry.FilterAppend` | internal/registry/registry.go:50 | one more claim extends the filter result by that claim exactly when it matches |
| `Registry.FilterEntries` | internal/registry/registry.go:35-53 | the loop with its `continue` guards and `append` returns exactly `Filter` of the claims under the four criteria |
| `Registry.FilterIsSubsequence` | internal/registry/registry.go:37-52 | the filter result is a subsequence of the claims: source order is kept |
| `Registry.FilterEverything` | internal/registry/registry.go:36-52 | with all four criteria empty, every claim is returned in the original order |
| `Registry.FilterNoMatch` | internal/registry/registry.go:36-52 | when no claim matches, the result is the empty sequence |
| `Registry.FilterNarrows` | internal/registry/registry.go:38-49 | setting criteria that were empty can only drop entries: the narrower result is a subsequence of the wider one |
| `Registry.FilterThenFilter` | internal/registry/registry.go:38-49 | filtering twice equals filtering once by any query whose match is the conjunction of both |
| `Registry.FilterIsConjunction` | internal/registry/registry.go:38-49 | the four criteria act independently: the filter equals four single-field filters applied one after another |
| `Registry.FilterIdempotent` | internal/registry/registry.go:37-50 | applying the same filter to its own result changes nothing |
| `Sync.WithDefaults` | internal/sync/syncer.go:37-49 | an empty path, branch or base URL and a zero interval take the defaults "claims/registry.yaml", "main", "https://raw.githubusercontent.com" and 60s; every set field is kept, and so are the repository and the token; an empty repository and a negative interval are not rejected |
| `Sync.WithDefaultsIdempotent` | internal/sync/syncer.go:38-49 | filling in defaults a second time changes nothing |
| `Sync.RawURL` | internal/sync/syncer.go:58-60 | the address starts with the base URL and a slash, continues with the repository and a slash, ends with a slash and the path, and is exactly three separators longer than the four parts |
| `Sync.UpToSlashOfSegment` | internal/sync/syncer.go:59 | a branch without '/' is read back from the address as the text before the next separator |
| `Sync.RawURLSplit` | internal/sync/syncer.go:58-60 | the address is the base URL, "/", the repository, "/", then the branch, "/" and the path: the whole format string |
| `Sync.RawURLDeterminesBranchAndPath` | internal/sync/syncer.go:58-60 | for a fixed base and repository, the address determines the branch (when it contains no '/') and the path |
| `Sync.BuildRequest` | internal/sync/syncer.go:64-71 | the request is a GET of the raw address; it carries an `Authorization` header exactly when a token is configured, and the header is `token <Token>` |
| `Sync.TokenRecoverable` | internal/sync/syncer.go:69-71 | the header carries the configured token verbatim after the word "token " |
| `Sync.NextSnapshot` | internal/sync/syncer.go:122-129 | after one cycle the snapshot is the fetched document on success, and the old snapshot on failure |
| `Sync.SnapshotAfter` | internal/sync/syncer.go:117-132 | after a run of cycles the snapshot is either the one before, or a document that one of the cycles fetched |
| `Sync.Fetch` | internal/sync/syncer.go:63-89 | each way a fetch can end is pinned: a request that cannot be built, a transport error, a status other than 200 (with that status and the raw address), an unreadable body, and a decoder failure each give their own error; a built request answered by 200 with a readable body that the decoder accepts yields exactly the decoded document; and success happens only that way |
| `Sync.FailedCyclesKeepSnapshot` | internal/sync/syncer.go:122-126 | a run of failed cycles leaves the snapshot exactly as it was |
| `Sync.LastGoodFetchWins` | internal/sync/syncer.go:122-129 | after a run of cycles the snapshot is exactly the document of the last successful fetch |
| `Sync.SnapshotNeverCleared` | internal/sync/syncer.go:122-129 | once a document is published, no run of cycles makes the snapshot absent again |
| `Sync.Cycles` | internal/sync/syncer.go:117-132 | the loop runs at most one fetch per event, one per tick up to the first cancellation |
| `Sync.CyclesSnoc` | internal/sync/syncer.go:121-131 | a further tick after ticks only adds that tick's fetch |
| `Sync.CyclesStopAtCancel` | internal/sync/syncer.go:118-120 | no cycle runs after the first cancellation |
| `Sync.Syncer.constructor` | internal/sync/syncer.go:37-55 | the new syncer holds the defaulted configuration, no snapshot, and a loop that was never started |
| `Sync.Syncer.GetRegistry` | internal/sync/syncer.go:145-149 | readers get the current snapshot: absent before the first successful fetch, otherwise the last published document |
| `Sync.Syncer.InitialSync` | internal/sync/syncer.go:93-105 | on a successful fetch the snapshot becomes exactly the fetched document and no error is returned; on failure the wrapped fetch error is returned and the snapshot is unchanged |
| `Sync.Syncer.Start` | internal/sync/syncer.go:109-113 | a syncer that was never started now has a running loop; the snapshot is untouched |
| `Sync.Syncer.Tick` | internal/sync/syncer.go:121-130 | one tick replaces the snapshot whole with a fetched document, or leaves it unchanged and reports the fetch error, which is then logged |
| `Sync.Syncer.RunLoop` | internal/sync/syncer.go:112-133 | with a positive interval, the snapshot after a run of events is the fold over its cycles' outcomes, and the loop exits exactly when a cancellation arrives and keeps running after failed ticks; with an interval that is not positive the ticker panics before any tick, the snapshot is untouched and the process is gone (`Crashed`) |
| `Sync.Syncer.Stop` | internal/sync/syncer.go:137-142 | on a syncer never started Stop does nothing; a started loop has exited once it returns; after a crash nothing changes; it never touches the snapshot |
| `Api.QueryGet` | internal/api/handlers.go:31-34 | a parameter reads as its first value when it has one, and as "" otherwise |
| `Api.CriteriaOf` | internal/api/handlers.go:31-36 | each of the four filter criteria is its parameter's first value, and a missing parameter is the wildcard "" |
| `Api.RouteName` | internal/api/handlers.go:64-65 | the claim name is the `{name}` route variable, "" when absent |
| `Api.ListClaims` | internal/api/handlers.go:19-49 | an absent snapshot gives 503 with "registry not yet loaded"; otherwise 200 with an envelope of fixed apiVersion "claim-registry.io/v1alpha1" and kind "ClaimList" whose items are the filter of the claims under the four query parameters, a missing one acting as "" |
| `Api.GetClaim` | internal/api/handlers.go:52-78 | 503 with "registry not yet loaded" exactly when no snapshot is present; with a snapshot, 404 with "claim not found" exactly when no claim has the route's name, and otherwise 200 with the first claim of that name; no other status |
| `Api.NotLoadedIgnoresRequest` | internal/api/handlers.go:22-62 | before a snapshot exists both endpoints give the same answer for every request: no lookup or filter takes place |
| `Api.ListEnvelopeIgnoresDocumentTags` | internal/api/handlers.go:41-45 | the list reply does not depend on the document's own apiVersion and kind |
| `Api.MissingParametersListEverything` | internal/api/handlers.go:31-36 | a request with none of the four parameters lists every claim, in order |
| `Api.NoMatchIsEmptyList` | internal/api/handlers.go:36-47 | with a snapshot and no matching claim the reply is still 200, with an empty item list |
| `Scenarios.FindOnTestDocument` | internal/registry/registry_test.go:62-72 | on the test document "hacky" is found with template "volumeclaim", and "nonexistent" is not found |
| `Scenarios.DuplicateNamesFirstWins` | internal/registry/registry.go:25-29 | a document that repeats a name is legal, and the lookup answers with the first claim of that name |
| `Scenarios.FilterNothingSet` | internal/registry/registry_test.go:78-80 | no criterion returns all three claims |
| `Scenarios.FilterByCategory` | internal/registry/registry_test.go:82-84 | category=cli returns the two cli claims |
| `Scenarios.FilterByTemplate` | internal/registry/registry_test.go:86-89 | template=volumeclaim returns only hacky |
| `Scenarios.FilterByStatus` | internal/registry/registry_test.go:91-94 | status=inactive returns only demo-project |
| `Scenarios.FilterBySource` | internal/registry/registry_test.go:96-99 | source=gitops returns only demo-project |
| `Scenarios.FilterByAllFour` | internal/registry/registry_test.go:101-104 | cli/harvestervm/active/cli returns only harvestervm-developer-martin |
| `Scenarios.FilterWithoutMatch` | internal/registry/registry_test.go:106-108 | cli together with inactive returns an empty result |
| `Scenarios.ListEndpointOnTestDocument` | internal/api/handlers_test.go:98-128 | with no parameters the list endpoint answers 200 with the fixed envelope and all 3 claims; with category=cli it lists 2 |
| `Scenarios.ListEndpointNarrowed` | internal/api/handlers_test.go:130-175 | category=cli with template=volumeclaim lists only hacky, status=inactive only demo-project, and an unknown category an empty list with status 200 |
| `Scenarios.GetEndpointOnTestDocument` | internal/api/handlers_test.go:177-206 | "hacky" answers 200 with that claim; "nonexistent" answers 404 with "claim not found" |
| `Scenarios.DefaultConfig` | internal/sync/syncer_test.go:115-121 | a configuration with only a repository gets path "claims/registry.yaml", branch "main", interval 60s and the raw-content host |
| `Scenarios.DefaultRawURL` | internal/sync/syncer.go:58-60 | with the defaults the file is fetched from https://raw.githubusercontent.com/test/repo/main/claims/registry.yaml |
| `Scenarios.TokenHeader` | internal/sync/syncer_test.go:68-85 | a configured token "ghp_test123" is sent as "token ghp_test123" |
| `Scenarios.TestServerURL` | internal/sync/syncer.go:58-60 | against the test server, with the default branch and path, the file is fetched from http://127.0.0.1:8080/test/repo/main/claims/registry.yaml |
| `Scenarios.InitialSyncNotFound` | internal/sync/syncer_test.go:54-66 | a 404 on start-up fails the initial sync with that status and the address, and the syncer still has no snapshot |
| `Scenarios.InitialSyncServes` | internal/sync/syncer_test.go:36-52 | a 200 on start-up publishes the served two-claim document, whose first claim is "hacky" |
| `Scenarios.BackgroundSync` | internal/sync/syncer_test.go:87-113 | start-up, two ticks and Stop ask the server at least three times, leave the served document published and the loop exited |
| `Scenarios.FailedPollKeepsDocument` | internal/sync/syncer.go:117-133 | a good tick then a tick answered 500 leaves the good tick's document published |
| `Scenarios.NegativeIntervalCrashes` | internal/sync/syncer.go:112-115 | a negative interval passes NewSyncer, but the loop crashes before any tick, and only the start-up document was published |

## Left out

- The YAML decoding inside `ParseData` (gopkg.in/yaml.v3) is a function parameter. Nothing is proved about which bytes decode to which document. The repository has no serialiser, so no parse/serialise round trip is claimed.
- The HTTP transport inside `fetch` is abstracted as the `Environment` parameter. That covers `http.Client` with its 30-second timeout, `io.ReadAll`, and context cancellation of an in-flight request. Only their possible outcomes are modelled, not how they arise.
- Concurrency is left out: the goroutine, `time.Ticker`, `context.WithCancel`, the `done` channel and the `sync.RWMutex`. The model is sequential. The loop's events (ticks and cancellation) are an explicit sequence, and the wait in `Stop` is a state change to `Exited`. The timing of ticks is not modelled, so neither is the "at least two polls in 150ms" expectation.
- `Sync.Syncer.RunLoop`: a panic in the goroutine ends the whole process. The model records it as the terminal `Crashed` state of the loop, and does not model the end of the process (the server's other goroutines, the HTTP listener).
- `Sync.Syncer.Start`: it requires a syncer that was never started. In Go, a second `Start` would start a second goroutine, and the two would close the same `done` channel, which panics. The model does not capture that misuse.
- Error messages are structured values (`FetchError`, `StartupError`, `ParseError`), not formatted strings. Logging (`log.Printf`) is left out, except that `Tick` returns the error it would log.
- Go distinguishes a nil slice from an empty one. `FilterEntries` returns nil when nothing matches, and `listClaims` replaces nil by an empty slice so the JSON shows `[]` rather than `null`. Dafny sequences cannot be null, so the model states "an empty list, never null" through the type and through `Api.NoMatchIsEmptyList`.
- `FindEntry` and `FilterEntries` on a nil registry would dereference nil. The handlers never call them with one, so the model takes a present document.
- JSON encoding of replies, gorilla/mux routing, the middleware (logging, CORS, request IDs, panic recovery), the health/version/OpenAPI/docs endpoints and the command-line/environment configuration (internal/api/server.go, internal/api/middleware.go, cmd/) are not part of this model.
- `Registry.FindEntry` returns the position of the entry where Go returns the pointer `&reg.Claims[i]`. Aliasing through that pointer is not modelled, and no caller uses it.
