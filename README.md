# Backstage terraform provider core, modelled in Dafny

This project models the core of a terraform provider for the Backstage software
catalog. The provider reads catalog entities (Component, Group, Location, Resource,
System, API, User, and filtered lists of entities) into terraform state, and manages
one resource, a catalog location.

## What is modelled

- **The by-name read with fallback** (`ResilientRead`).
  - Every by-name data source works the same way. A null namespace becomes `default`,
    and the catalog call's reply is checked for two failure signals: a transport
    error, and a status other than 200.
  - Without a fallback, the first signal that fires adds one error and the state is
    never set.
  - With a fallback, each firing signal adds a warning. The state is then taken from
    the fallback, after that kind's defaults for a null ID, apiVersion and kind.
  - On success, the entity is projected into state.
  - The kinds differ in three parameters: whether they have a fallback attribute, which
    fallback fields they default (`DefaultPolicy`), and how their spec is projected.
    Component defaults nothing; Group, Location, Resource and System default all
    three fields.
- **One module per data-source file.** Each has a `Read` method proved against the
  engine's specification function `ReadOutcome`, with the kind's `SpecOf` as the spec
  projection. Where the spec block copies lists with loops, a `ProjectSpec` method is
  proved against `SpecOf`, and a `SpecFrom` read-back with a round-trip lemma shows
  that nothing is lost. System and API copy only scalars, so their `Read` uses
  `SpecOf` directly and lemmas state each field that a successful read exposes.
- **Entity projection** (`Projection`). Scalars are copied one to one. Lists are copied
  by append loops that keep their order. Label and annotation maps are copied key by
  key into new maps. Round-trip lemmas show the projection loses nothing.
- **The entities data source** (`EntitiesDataSource`).
  - The list call asks for ascending `metadata.name` order.
  - The loop keeps each entity whose spec marshals and reports each one that does not.
  - The ID is the filters printed with `%v`.
  - The fallback's ID defaults to the same placeholder.
- **The location resource** (`LocationResource`).
  - Create accepts only 201, Read only 200, and Delete only 204.
  - Update changes nothing.
  - Import sets only the ID.
- **The headers transport** (`Transport`).
  - `RoundTrip` clones the request, then adds every configured header to the clone
    under its canonical name, in the map's iteration order. It sends the clone on to
    the base transport, or to the default transport when there is none.
  - The caller's request is not modified.
- **The provider's `Configure`** (`Provider`).
  - Settings are resolved from the configuration and the environment.
  - The checks run in stages. Unknown values are reported first and stop everything.
    The base-URL, namespace and retries checks run next and stop before the client is
    built. A bad timeout is reported, but the client is still built.
  - The `BACKSTAGE_HEADERS` pattern `(.*?)=([^=]*)(?:,|$)` is modelled match by match,
    with leftmost-first semantics.
  - The HTTP client is layered as the source builds it.
- **Supporting modules.** `Format` models `%d`, `fmt.Sprint` of a string slice, and
  `strconv.Atoi` (int64 range, syntax and range errors). `Framework` models terraform's
  nullable string, diagnostics and the response object an operation fills in.
  `Catalog` holds the catalog client's entity shapes and the triple each call returns.

## Model

| member | source | states |
|---|---|---|
| ResilientRead.ReportFailures | backstage/data_source_component.go:236-254 | appends exactly `FailureDiagnostics`: each firing signal as a warning with a fallback, or the first as an error without one; stops exactly when there is no fallback and a signal fired; leaves the state alone |
| ResilientRead.FailureDiagnosticsShape | backstage/data_source_group.go:241-259 | a successful reply adds nothing; without a fallback a failure adds exactly one error naming the transport error, else the status line; with a fallback only warnings, one per firing signal |
| ResilientRead.Start | backstage/data_source_group.go:235-237 | a null namespace becomes `default`, a set one is kept, and the name and fallback come from the configuration |
| ResilientRead.ApplyFallback | backstage/data_source_group.go:260-279 | the fallback branch yields `Resolved`: the kind's defaults are written into the fallback, then every entity field is copied from it |
| ResilientRead.Begin | backstage/data_source_location.go:209-261 | the call uses the configured name and defaulted namespace; it adds the failure diagnostics, stops exactly when a read failed without a fallback, and otherwise continues with the resolved fallback on failure or the start state on success |
| ResilientRead.ProjectCommon | backstage/data_source_resource.go:259-316 | the success branch takes the ID from the metadata UID and the entity's apiVersion and kind, and appends the projected relations and metadata |
| ResilientRead.NamespaceDefaulted | backstage/data_source_system.go:206-210 | the catalog is asked for the configured name in `default` when the namespace is null, and in the configured namespace otherwise |
| ResilientRead.NoFallbackFailure | backstage/data_source_group.go:241-259 | without a fallback, either failure signal gives no state and exactly one error about `namespace/name` with its cause |
| ResilientRead.FallbackOnlyWarns | backstage/data_source_group.go:241-279 | with a fallback, a failed read adds only warnings (one per firing signal) and the state is the defaulted fallback |
| ResilientRead.StateSetIff | backstage/data_source_location.go:223-321 | the state is set if and only if the read succeeded or a fallback exists, and an error is reported if and only if it is not set |
| ResilientRead.SuccessProjects | backstage/data_source_group.go:280-347 | a successful read adds no diagnostic; ID, apiVersion, kind, relations, metadata and spec come from the reply, and name and namespace stay as requested |
| ResilientRead.DefaultedFields | backstage/data_source_resource.go:240-249 | each null ID, apiVersion or kind gets the placeholder, `backstage.io/v1alpha1` or the kind; a set field and every other field are unchanged; no policy changes nothing |
| ResilientRead.DefaultedIdempotent | backstage/data_source_system.go:231-240 | applying the fallback defaults twice gives the same fallback as applying them once |
| ResilientRead.FallbackStable | backstage/data_source_system.go:231-250 | on the fallback path the state's identity fields equal the updated fallback's, the other fields are the caller's, and reading again with the updated fallback gives the same state |
| ComponentDataSource.Read | backstage/data_source_component.go:222-340 | the issued request and the diagnostics and state set are exactly those `ReadOutcome` gives for the Component kind, with no fallback defaults |
| ComponentDataSource.ProjectSpec | backstage/data_source_component.go:282-300 | the spec block's loops produce `SpecOf` of the catalog spec |
| ComponentDataSource.SpecRoundTrip | backstage/data_source_component.go:282-300 | reading the projected spec back gives the catalog's spec, with every list in its order |
| ComponentDataSource.SystemExposed | backstage/data_source_component.go:266-300 | a successful read has no diagnostic and exposes the component's system, its owner, and its provided APIs in order |
| ComponentDataSource.FallbackUsedVerbatim | backstage/data_source_component.go:255-264 | a Component fallback without apiVersion or metadata is used as written, with warnings only: nothing is defaulted |
| GroupDataSource.Read | backstage/data_source_group.go:227-353 | the issued request and the outcome are `ReadOutcome`'s for Group, with ID, apiVersion and kind defaulted |
| GroupDataSource.ProjectSpec | backstage/data_source_group.go:297-314 | the spec block produces `SpecOf`, always with a profile |
| GroupDataSource.SpecRoundTrip | backstage/data_source_group.go:297-314 | the type, profile, parent, children and members can be read back unchanged |
| GroupDataSource.MissingTeamWithFallback | backstage/data_source_group.go:241-279 | a 404 for `team_does_not_compute` with the fallback `fallback_team`/parent `backstage` gives one warning, that name and spec, and the Group defaults |
| GroupDataSource.MissingTeamWithoutFallback | backstage/data_source_group.go:241-259 | the same read without a fallback gives no state and one error naming `default/team_does_not_compute` and `404 Not Found` |
| GroupDataSource.Messages | backstage/data_source_group.go:241-244 | the Group summary text, and a detail that names the namespace before the name |
| LocationDataSource.Read | backstage/data_source_location.go:209-326 | the issued request and the outcome are `ReadOutcome`'s for Location, with defaults |
| LocationDataSource.ProjectSpec | backstage/data_source_location.go:278-286 | the spec block produces `SpecOf` |
| LocationDataSource.SpecRoundTrip | backstage/data_source_location.go:278-286 | type, target, presence and the targets in order can be read back |
| LocationDataSource.NameOnlyFallback | backstage/data_source_location.go:223-261 | when both signals fire with a name-only fallback: two warnings, the fallback's name, its null namespace, and the Location defaults |
| ResourceDataSource.Read | backstage/data_source_resource.go:206-323 | the issued request and the outcome are `ReadOutcome`'s for Resource, with defaults |
| ResourceDataSource.ProjectSpec | backstage/data_source_resource.go:275-283 | the spec block produces `SpecOf` |
| ResourceDataSource.SpecRoundTrip | backstage/data_source_resource.go:275-283 | type, owner, system and the dependencies in order can be read back |
| ResourceDataSource.MissingResourceWithFallback | backstage/data_source_resource.go:220-258 | a failed read with the fallback `fallback_artists` gives warnings only, that name, and the Resource apiVersion and kind |
| ResourceDataSource.MissingResourceWithoutFallback | backstage/data_source_resource.go:220-238 | without a fallback, a 404 gives no state and one error ending `default/artist_not_found_resource_a9ab8: 404 Not Found` |
| ResourceDataSource.Messages | backstage/data_source_resource.go:220-224 | the Resource summary text, and a detail that names the namespace before the name |
| SystemDataSource.Read | backstage/data_source_system.go:198-310 | the issued request and the outcome are `ReadOutcome`'s for System, with defaults |
| SystemDataSource.SpecExposed | backstage/data_source_system.go:251-270 | a successful read exposes the owner and domain |
| SystemDataSource.FallbackKeepsSetFields | backstage/data_source_system.go:231-250 | a fallback that sets its own ID, apiVersion and kind becomes the state unchanged |
| ApiDataSource.Read | backstage/data_source_api.go:125-215 | the issued request and the outcome are `ReadOutcome`'s for API without a fallback |
| ApiDataSource.FailOrProject | backstage/data_source_api.go:140-209 | a read fails with exactly one error and no state, or succeeds silently with the API's type, lifecycle, owner, definition and system |
| UserDataSource.Read | backstage/data_source_user.go:144-238 | the issued request and the outcome are `ReadOutcome`'s for User without a fallback |
| UserDataSource.ProjectSpec | backstage/data_source_user.go:189-199 | the spec block produces `SpecOf` |
| UserDataSource.SpecRoundTrip | backstage/data_source_user.go:189-199 | the profile and the memberships in order can be read back |
| UserDataSource.FailOrProject | backstage/data_source_user.go:159-199 | a failure gives one error whose detail names `namespace/name` and the cause, and no state; a success keeps every membership in order |
| BackstageComponentDataSource.Read | backstage/data_source_backstage_component.go:132-234 | the issued request and the outcome are `ReadOutcome`'s for the older Component read without a fallback |
| BackstageComponentDataSource.FailOrProject | backstage/data_source_backstage_component.go:147-196 | one error and no state on failure, and the projected Component on success |
| BackstageComponentDataSource.Messages | backstage/data_source_backstage_component.go:148-150 | the summary calls the kind "API" while the detail says "Component" |
| BackstageResourceDataSource.Read | backstage/data_source_backstage_resource.go:120-212 | the issued request and the outcome are `ReadOutcome`'s for the older Resource read without a fallback |
| BackstageResourceDataSource.FailOrProject | backstage/data_source_backstage_resource.go:135-206 | one error or the projection, and the same outcome as the fallback-capable Resource read when no fallback is configured |
| EntitiesDataSource.ListRequest | backstage/data_source_entities.go:239-242 | the list call passes the configured filters and asks for ascending `metadata.name` order |
| EntitiesDataSource.ProjectEntity | backstage/data_source_entities.go:283-332 | the body of the entity loop produces `EntityOf` of an entity whose spec marshalled |
| EntitiesDataSource.Read | backstage/data_source_entities.go:230-342 | the issued options and the diagnostics and state set are exactly `ReadResult`'s: the parse errors in list order and the kept entities in list order |
| EntitiesDataSource.ProjectEntities | backstage/data_source_entities.go:274-334 | the loop adds exactly the parse errors, in list order, and returns the kept entities, in list order; the state is untouched |
| EntitiesDataSource.KeptOrReported | backstage/data_source_entities.go:274-333 | every listed entity is either kept or reported as a parse error: never both, never lost |
| EntitiesDataSource.KeptAppend | backstage/data_source_entities.go:274-333 | the loop over `a + b` keeps and reports what the loops over `a` and then `b` do |
| EntitiesDataSource.AllMarshalled | backstage/data_source_entities.go:274-333 | when every spec marshals there are no parse errors and every entity is kept, in the catalog's order |
| EntitiesDataSource.ParseDiagnosticsAreErrors | backstage/data_source_entities.go:276-281 | every parse diagnostic is an error with the parse summary |
| EntitiesDataSource.UnparseableSpecStillSets | backstage/data_source_entities.go:275-281 | a spec that does not marshal adds an error naming it but still sets the state, without that entity |
| EntitiesDataSource.SuccessId | backstage/data_source_entities.go:272 | a successful listing's ID is the filters printed as `[first second]` |
| EntitiesDataSource.FailedListing | backstage/data_source_entities.go:243-270 | without a fallback a failure gives one error and no state; with one, only warnings and the fallback's entities, filters and defaulted ID |
| Projection.CopyEach | backstage/data_source_group.go:307-313 | the append loop produces `MapSeq`: the same length and order, element by element |
| Projection.MapSeqAt | backstage/data_source_component.go:290-300 | element `i` of a copied list is the projection of element `i`, and the length is kept |
| Projection.MapSeqAppend | backstage/data_source_component.go:271-280 | appending after earlier elements extends the copy: one loop over `a + b` |
| Projection.MapSeqLeftInverse | backstage/data_source_component.go:321-323 | a copied list read back with a left inverse is the source list |
| Projection.CopyMap | backstage/data_source_component.go:313-319 | the key-by-key copy into a new map has exactly the source's keys and values |
| Projection.CopyRelations | backstage/data_source_component.go:271-280 | the relations loop produces `RelationsOf` |
| Projection.CopyMetadata | backstage/data_source_component.go:302-332 | the metadata block produces `MetadataOf` |
| Projection.RelationsOfAt | backstage/data_source_component.go:271-280 | every projected relation keeps its type and ref and has a target with the source's kind, name and namespace, in order |
| Projection.MetadataRoundTrip | backstage/data_source_component.go:302-332 | every scalar, label, annotation, tag and link of the metadata can be read back, tags and links in order |
| Framework.OrDefault | backstage/data_source_component.go:230-232 | a null gets the default, a set value is kept, and the result is never null |
| Framework.OrDefaultIdempotent | backstage/data_source_group.go:261-269 | applying a default a second time changes nothing |
| Framework.Response.AddError | backstage/resource_location.go:95-98 | appends one error and leaves the state alone |
| Framework.Response.AddWarning | backstage/data_source_component.go:243 | appends one warning and leaves the state alone |
| Framework.Response.SetState | backstage/data_source_component.go:335 | sets the state and adds no diagnostic |
| Format.NatDigits | backstage/resource_location.go:102-104 | the decimal form is non-empty, all digits, and has no leading zero |
| Format.DigitsValueOfNatDigits | backstage/resource_location.go:102-104 | the printed digits denote the number |
| Format.Atoi | backstage/provider.go:157 | a parsed value lies in the int64 range; a failed parse gives 0 or the clamped bound |
| Format.AtoiOfItoa | backstage/provider.go:157 | `Atoi` reads back every int64 that `%d` prints |
| Format.SprintStrings | backstage/data_source_entities.go:272 | `%v` of a string slice is bracketed |
| LocationResource.Create | backstage/resource_location.go:85-119 | creates the planned target without a dry run; the diagnostics and state set are exactly `CreateResult`'s |
| LocationResource.Read | backstage/resource_location.go:121-153 | fetches by the state's ID; the diagnostics and state set are exactly `ReadResult`'s |
| LocationResource.Update | backstage/resource_location.go:155-171 | adds no diagnostic and keeps the state |
| LocationResource.Delete | backstage/resource_location.go:173-196 | deletes by the state's ID, adds exactly `DeleteDiagnostics`, and keeps the state |
| LocationResource.Imported | backstage/resource_location.go:198-200 | an import sets only the ID; the target, type and timestamp are null |
| LocationResource.CreateSucceedsIff | backstage/resource_location.go:93-109 | a create succeeds if and only if there is no error and the status is 201; otherwise it adds exactly one error and sets no state |
| LocationResource.ReadSucceedsIff | backstage/resource_location.go:129-147 | a read succeeds if and only if there is no error and the status is 200; otherwise it adds exactly one error and sets no state |
| LocationResource.DeleteSucceedsIff | backstage/resource_location.go:181-195 | a delete adds nothing if and only if there is no error and the status is 204; otherwise it adds exactly one error |
| LocationResource.ReadKeepsIdentity | backstage/resource_location.go:143-147 | a read changes only the target and type; the ID and the creation stamp survive |
| LocationResource.ReadAfterCreate | backstage/resource_location.go:105-147 | reading back an unchanged location reproduces the created state, and a second read changes nothing |
| LocationResource.ReadAfterImport | backstage/resource_location.go:121-153 | after an import, a successful read fills in the target and type of the imported ID |
| LocationResource.UnexpectedStatusReported | backstage/resource_location.go:101-104 | a rejected status is reported in decimal and reads back as that code |
| Transport.EffectiveBase | internal/transport/headers_transport.go:31-37 | the base transport when set, otherwise the default transport |
| Transport.Client | internal/transport/headers_transport.go:26-28 | a client whose transport is this one, without a timeout |
| Transport.CanonicalKey | internal/transport/headers_transport.go:18-20 | canonicalising a header name keeps its length |
| Transport.CanonicalKeyIdempotent | internal/transport/headers_transport.go:18-20 | canonicalising a canonical name changes nothing |
| Transport.CanonicalExample | internal/transport/headers_transport.go:18-20 | `test-header-1` is sent as `Test-Header-1` |
| Transport.Header.Add | internal/transport/headers_transport.go:19 | appends the value under the canonical key |
| Transport.CloneRequest | internal/transport/headers_transport.go:40-50 | a fresh request with the same fields and a fresh header map with the same values |
| Transport.RoundTrip | internal/transport/headers_transport.go:15-23 | sends a fresh copy carrying every configured header, in iteration order, to `EffectiveBase`; the caller's request is untouched; a header the configuration does not name is sent exactly as the caller had it; a configured key whose canonical form no other configured key shares is sent with the caller's values followed by the configured value |
| Transport.AddAllKeepsExisting | internal/transport/headers_transport.go:18-20 | no header key disappears, and each existing value list is a prefix of the list afterwards; a key that is not the canonical form of a configured key is present afterwards exactly when it was before, with the same values |
| Transport.AddAllAppendsValue | internal/transport/headers_transport.go:18-20 | `Add` appends: when no other visited key has the same canonical form, the values under it afterwards are the original values followed by the configured value |
| Transport.AddHeaders | internal/transport/headers_transport.go:18-20 | the loop leaves the header map as `AddAll` of the map it started with, visiting the keys in `order` |
| Transport.CanonicalKeysSnoc | internal/transport/headers_transport.go:18-20 | the canonical names of a key list are those of all but its last key, together with the last key's |
| Transport.AddAllKeys | internal/transport/headers_transport.go:18-20 | the keys afterwards are exactly the request's own keys and the canonical forms of the configured keys |
| Transport.AddAllContains | internal/transport/headers_transport.go:18-20 | each visited configured header's value is under its canonical key |
| Transport.AllConfiguredPresent | internal/transport/headers_transport.go:15-23 | every configured header reaches the sent request, whatever the iteration order |
| Transport.NoHeadersPassThrough | internal/transport/headers_transport.go:18-20 | with no configured headers the header map is passed on as it was |
| Provider.AttributeOf | backstage/provider.go:102-211 | every problem is reported on an attribute except a failure to create the client |
| Provider.DiagnosticOf | backstage/provider.go:102-211 | every problem becomes an error diagnostic on its attribute |
| Provider.ResolveNamespace | backstage/provider.go:128-134 | the resolved namespace is never empty |
| Provider.CheckErrors | backstage/provider.go:121-166 | no check error is reported if and only if no check failed |
| Provider.NextEquals | backstage/provider.go:144 | the next `=` at or after a position, or the end of the text |
| Provider.ValueEnd | backstage/provider.go:144 | a value end lies between its start and the limit |
| Provider.KeyMatch | backstage/provider.go:144 | a key match ends at an `=` inside the text, followed by a value |
| Provider.MatchFrom | backstage/provider.go:144 | a match starts at or after the position, with its `=` before its value end |
| Provider.ParseHeadersEnv | backstage/provider.go:143-147 | the loop builds `PairsToMap` of the pattern's matches |
| Provider.BaseUrlStep | backstage/provider.go:116-120 | the configured base URL when known, otherwise `BACKSTAGE_BASE_URL` |
| Provider.NamespaceStep | backstage/provider.go:128-134 | the configured namespace when known, otherwise the variable; empty becomes `default` |
| Provider.HeadersStep | backstage/provider.go:142-151 | the variable's headers when it is set, otherwise the configured map |
| Provider.RetriesStep | backstage/provider.go:153-164 | the variable through `Atoi` when it is set, otherwise the configured value |
| Provider.TimeoutStep | backstage/provider.go:170-181 | the variable through `Atoi` when it is set, otherwise the configured value, 15 when null |
| Provider.HttpClientStep | backstage/provider.go:191-204 | the client is the headers transport over the retrying client or the plain one |
| Provider.Configure | backstage/provider.go:92-214 | the problems, the `NewClient` call and the client handed on are exactly `ConfigureResult`'s |
| Provider.FindPairsRender | backstage/provider.go:143-147 | headers written as `k=v,k=v` with keys and values free of `=` and commas are read back exactly, in order |
| Provider.NextPair | backstage/provider.go:144 | the text after a match is shorter than the text searched |
| Provider.FindPairsStep | backstage/provider.go:144 | the search yields the leftmost match's groups, then the matches after it, resuming past the consumed comma |
| Provider.FindPairsFirst | backstage/provider.go:144 | reading a rendered list yields its first pair, then what reading the rest yields |
| Provider.FirstMatch | backstage/provider.go:144 | the leftmost match in a rendered list is its first pair |
| Provider.PairsToMapKeys | backstage/provider.go:145-146 | the map's keys are exactly the matched keys |
| Provider.PairsToMapLastWins | backstage/provider.go:145-146 | a repeated key takes the value of its last occurrence |
| Provider.HeadersFromEnvironment | backstage/provider.go:142-151 | a rendered `BACKSTAGE_HEADERS` gives exactly those headers, whatever the configuration says |
| Provider.HeadersExample | backstage/provider.go:143-147 | `X-Team=platform,X-Env=prod` gives those two headers |
| Provider.ConfigureStages | backstage/provider.go:102-214 | unknown values stop everything; the client is built if and only if the URL, namespace and retries checks pass; a bad timeout is reported but the client is built; the client is handed on if and only if it could be created |
| Provider.CreatedClient | backstage/provider.go:116-206 | a created client has a valid URL, a non-empty name-pattern namespace and the headers transport over the retrying or default transport, with the matching timeouts |
| Provider.EnvironmentOverridesNumbersAndHeaders | backstage/provider.go:142-181 | once set, the headers, retries and timeout variables make the attribute irrelevant |
| Provider.ConfigurationOverridesLocation | backstage/provider.go:116-134 | once the attribute is known, the base-URL and namespace variables make no difference |
| Provider.BaseUrlExamples | backstage/provider.go:121 | the URL pattern is searched, not anchored: `see http://x` passes and `https://` alone does not |
| Provider.MinimalConfiguration | backstage/provider.go:116-214 | only a base URL gives no problem, namespace `default`, no retries, a 15-second timeout and no headers |
| Provider.BadTimeoutStillCreates | backstage/provider.go:170-214 | a timeout of `soon` is reported and the client is created with the value 0 |

## Left out

- Terraform plumbing is not modelled: reading the configuration or plan (`req.Config.Get`), schemas and their validators, `Metadata`, the provider's `Schema`/`Resources`/`DataSources`/`New`, and each `Configure` that stores the client in a data source.
- Logging (`tflog`) is left out: it has no effect on the outcome.
- The catalog client and the network are parameters: each call's `(value, response, error)` is given as a `Reply`. The issued request is returned so that contracts can state it.
- A nil `*http.Response`: every `Reply` carries a response, so the model never meets the case where a read dereferences `response.StatusCode` after a transport error that left the response nil (for example backstage/data_source_component.go:246). In Go that read would panic; the model always reads the status of the response the `Reply` carries.
- The clock is a parameter: the RFC 850 timestamp of a create is the string `now`.
- `json.Marshal` is not modelled: each listed entity carries its marshal outcome, either the JSON text or an error message.
- `backstage.NewClient`'s own checks are a parameter, `newClientErr`.
- The retrying client's backoff and retry policy, and the base transports' own round trips, are not modelled. Only the layering the provider builds is.
- Go's map iteration order in `RoundTrip` is the parameter `order`, which may be any order.
- Terraform's null-versus-empty distinction for lists is not kept: an empty projected list and a null one are the same `[]`.
- Null elements inside the configured headers map are not modelled; the map holds plain strings.
- The conversion of `timeout_seconds` to a `time.Duration` is not modelled. The model keeps the number of seconds, so the overflow for values above about 9.2e9 seconds does not appear.
- Provider.FindPairsRender: the round trip is stated only for keys without `=`, commas or newlines and values without `=` or commas. Other texts are still parsed by the exact model of the pattern, but no round trip is claimed.
- The domain data sources are not part of this model.

## Where the code and its specification differ

The model follows the code.
- When both failure signals fire, the code reports two diagnostics: two warnings with a fallback, or one error without, because it returns at the first error. Its design description speaks of a single report (`LocationDataSource.NameOnlyFallback`).
- Only Group, Location, Resource and System default a fallback's ID, apiVersion and kind. Component uses its fallback verbatim (`ComponentDataSource.FallbackUsedVerbatim`), and the entities data source defaults only the ID.
- A projected relation always carries a target, even when the catalog's is empty. The target is a struct value, not a pointer.
- The base-URL pattern `https?://.+` is not anchored, so any value containing a scheme followed by one character passes.
- An invalid timeout is reported, but the client is still created with the value `Atoi` returned, which is 0 for a syntax error. Configuration errors are therefore not all fatal before the client is built.
- An unknown `retries` or `timeout_seconds` reads as 0. Only the base URL and the namespace are checked for unknown values.
