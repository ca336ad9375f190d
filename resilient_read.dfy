/** The read-with-fallback procedure that every by-name data source follows, with the
    three ways the kinds differ as parameters: whether a fallback is configured at all
    (kinds without one always pass `None`), which fallback fields get defaults, and how
    the kind's spec is projected (`specOf`). */
module ResilientRead {
  import opened Framework
  import opened Catalog
  import opened Projection

  /** The placeholder ID a fallback without one receives. */
  const SentinelId: string := "123456789"
  /** The apiVersion a fallback without one receives. */
  const DefaultApiVersion: string := "backstage.io/v1alpha1"

  /** Which fields of a fallback are defaulted when the caller left them null. */
  datatype DefaultPolicy =
    | NoDefaults
    | DefaultIdApiVersionKind(kind: string)

  /** What a data source's messages call the kind: `summaryNoun` in the short error,
      `detailNoun` in the long one, and the fallback defaulting policy. */
  datatype KindInfo = KindInfo(summaryNoun: string, detailNoun: string, policy: DefaultPolicy)

  /** The `fallback` block: an entity as the caller would have it in the catalog. */
  datatype FallbackModel<Spec> = FallbackModel(
    id: Str,
    name: Str,
    namespace: Str,
    apiVersion: Str,
    kind: Str,
    metadata: Option<MetadataModel>,
    relations: seq<RelationModel>,
    spec: Option<Spec>)

  /** A by-name data source's state (`<kind>DataSourceModel`). */
  datatype DataSourceModel<Spec> = DataSourceModel(
    id: Str,
    name: Str,
    namespace: Str,
    apiVersion: Str,
    kind: Str,
    metadata: Option<MetadataModel>,
    relations: seq<RelationModel>,
    spec: Option<Spec>,
    fallback: Option<FallbackModel<Spec>>)

  /** What the configuration supplies: the required name, the optional namespace and
      the optional fallback. Every computed attribute is null in configuration. */
  datatype Config<Spec> = Config(name: string, namespace: Str, fallback: Option<FallbackModel<Spec>>)

  /** The catalog call a `Read` issues: `Get(ctx, name, namespace)`. */
  datatype GetRequest = GetRequest(name: string, namespace: string)

  /** The diagnostics a read appends and the state it sets (`None`: never set). */
  datatype Outcome<M> = Outcome(diagnostics: seq<Diagnostic>, state: Option<M>)

  /** Either failure signal: a transport error, or a status other than 200. */
  predicate Failed(err: Option<string>, response: HttpResponse) {
    err.Some? || response.statusCode != StatusOK
  }

  /** The number of failure signals that fire. */
  function SignalCount(err: Option<string>, response: HttpResponse): nat {
    (if err.Some? then 1 else 0) + (if response.statusCode != StatusOK then 1 else 0)
  }

  /** The diagnostics of the two failure checks: each firing signal is reported with
      its cause after `subject`, as a warning when a fallback is present and as an
      error otherwise; without a fallback, reporting stops at the first error. */
  function FailureDiagnostics(fallbackPresent: bool, summary: string, subject: string, err: Option<string>, response: HttpResponse): seq<Diagnostic> {
    var severity := if fallbackPresent then Warning else Error;
    var errPart := if err.Some? then [Diagnostic(severity, summary, subject + ": " + err.value, None)] else [];
    var statusPart := if response.statusCode != StatusOK then [Diagnostic(severity, summary, subject + ": " + response.status, None)] else [];
    if !fallbackPresent && err.Some? then errPart else errPart + statusPart
  }

  /** The two `if err != nil` / `if response.StatusCode != http.StatusOK` blocks. */
  method ReportFailures<M>(resp: Response<M>, fallbackPresent: bool, summary: string, subject: string, err: Option<string>, response: HttpResponse)
    returns (stop: bool)
    modifies resp
    ensures resp.diagnostics == old(resp.diagnostics) + FailureDiagnostics(fallbackPresent, summary, subject, err, response)
    ensures resp.state == old(resp.state)
    ensures stop <==> !fallbackPresent && Failed(err, response)
  {
    if err.Some? {
      if !fallbackPresent {
        resp.AddError(summary, subject + ": " + err.value);
        return true;
      }
      resp.AddWarning(summary, subject + ": " + err.value);
    }
    if response.statusCode != StatusOK {
      if !fallbackPresent {
        resp.AddError(summary, subject + ": " + response.status);
        return true;
      }
      resp.AddWarning(summary, subject + ": " + response.status);
    }
    return false;
  }

  /** Without a fallback a failed read yields exactly one error, carrying the transport
      error when there is one and the status line otherwise; with a fallback it yields
      only warnings, one per firing signal; a successful read yields nothing. */
  lemma FailureDiagnosticsShape(fallbackPresent: bool, summary: string, subject: string, err: Option<string>, response: HttpResponse)
    ensures var ds := FailureDiagnostics(fallbackPresent, summary, subject, err, response);
      && (!Failed(err, response) ==> ds == [])
      && (!fallbackPresent && Failed(err, response) ==>
            ds == [Diagnostic(Error, summary, subject + ": " + (if err.Some? then err.value else response.status), None)])
      && (fallbackPresent ==> OnlyWarnings(ds) && |ds| == SignalCount(err, response))
  {
  }

  function Summary(k: KindInfo): string {
    "Error reading Backstage " + k.summaryNoun + " kind"
  }

  /** `Could not read Backstage <kind> kind <namespace>/<name>`: the namespace comes first. */
  function Subject(k: KindInfo, namespace: string, name: string): string {
    "Could not read Backstage " + k.detailNoun + " kind " + namespace + "/" + name
  }

  /** The state as read from configuration, before anything else. */
  function Initial<Spec>(config: Config<Spec>): DataSourceModel<Spec> {
    DataSourceModel(Null, Value(config.name), config.namespace, Null, Null, None, [], None, config.fallback)
  }

  /** The state once a null namespace has been replaced by `default`. */
  function Start<Spec>(config: Config<Spec>): (s: DataSourceModel<Spec>)
    ensures s.namespace == (if config.namespace.Null? then Value(DefaultNamespaceName) else config.namespace)
    ensures s.name == Value(config.name) && s.fallback == config.fallback
  {
    Initial(config).(namespace := OrDefault(config.namespace, DefaultNamespaceName))
  }

  /** The catalog call: the configured name and the defaulted namespace. */
  function RequestOf<Spec>(config: Config<Spec>): GetRequest {
    GetRequest(config.name, ValueString(Start(config).namespace))
  }

  /** The fallback after the kind's defaults for null fields. */
  function Defaulted<Spec>(fb: FallbackModel<Spec>, policy: DefaultPolicy): FallbackModel<Spec> {
    match policy
    case NoDefaults => fb
    case DefaultIdApiVersionKind(kind) =>
      fb.(id := OrDefault(fb.id, SentinelId),
          apiVersion := OrDefault(fb.apiVersion, DefaultApiVersion),
          kind := OrDefault(fb.kind, kind))
  }

  /** The fallback path: the defaults are written into the state's own fallback and every
      entity field is then taken from it. */
  function Resolved<Spec>(state: DataSourceModel<Spec>, policy: DefaultPolicy): DataSourceModel<Spec>
    requires state.fallback.Some?
  {
    var fb := Defaulted(state.fallback.value, policy);
    state.(fallback := Some(fb), id := fb.id, name := fb.name, namespace := fb.namespace,
           apiVersion := fb.apiVersion, kind := fb.kind, metadata := fb.metadata,
           relations := fb.relations, spec := fb.spec)
  }

  /** The success path: ID from the metadata UID, apiVersion and kind from the entity,
      projected relations, spec and metadata; name and namespace stay as requested. */
  function Projected<CSpec, Spec>(state: DataSourceModel<Spec>, e: Entity<CSpec>, specOf: CSpec -> Spec): DataSourceModel<Spec> {
    state.(id := StringValue(e.metadata.uid), apiVersion := StringValue(e.apiVersion), kind := StringValue(e.kind),
           relations := state.relations + RelationsOf(e.relations),
           spec := Some(specOf(e.spec)), metadata := Some(MetadataOf(e.metadata)))
  }

  /** What a by-name `Read` does with a configuration and a catalog reply. */
  function ReadOutcome<CSpec, Spec>(k: KindInfo, config: Config<Spec>, reply: Reply<Entity<CSpec>>, specOf: CSpec -> Spec): Outcome<DataSourceModel<Spec>> {
    var start := Start(config);
    var diags := FailureDiagnostics(config.fallback.Some?, Summary(k), Subject(k, ValueString(start.namespace), config.name), reply.err, reply.response);
    if !Failed(reply.err, reply.response) then Outcome(diags, Some(Projected(start, reply.value, specOf)))
    else if config.fallback.None? then Outcome(diags, None)
    else Outcome(diags, Some(Resolved(start, k.policy)))
  }

  /** The fallback branch of `Read`: defaults into `state.Fallback`, then the copies. */
  method ApplyFallback<Spec>(state: DataSourceModel<Spec>, policy: DefaultPolicy) returns (r: DataSourceModel<Spec>)
    requires state.fallback.Some?
    ensures r == Resolved(state, policy)
  {
    var fb := state.fallback.value;
    if policy.DefaultIdApiVersionKind? {
      if fb.id.Null? {
        fb := fb.(id := Value(SentinelId));
      }
      if fb.apiVersion.Null? {
        fb := fb.(apiVersion := Value(DefaultApiVersion));
      }
      if fb.kind.Null? {
        fb := fb.(kind := Value(policy.kind));
      }
    }
    r := state.(fallback := Some(fb));
    r := r.(id := fb.id, name := fb.name, namespace := fb.namespace, apiVersion := fb.apiVersion, kind := fb.kind);
    r := r.(metadata := fb.metadata, relations := fb.relations, spec := fb.spec);
  }

  /** The first half of every by-name `Read`: default the namespace, issue the call
      (whose result is `reply`), report the failure signals and, when the read failed
      but a fallback is configured, take the fallback. `stop` is the early return. */
  method Begin<CSpec, Spec>(resp: Response<DataSourceModel<Spec>>, k: KindInfo, config: Config<Spec>, reply: Reply<Entity<CSpec>>)
    returns (state: DataSourceModel<Spec>, call: GetRequest, stop: bool)
    modifies resp
    ensures call == RequestOf(config)
    ensures resp.diagnostics == old(resp.diagnostics) +
      FailureDiagnostics(config.fallback.Some?, Summary(k), Subject(k, call.namespace, config.name), reply.err, reply.response)
    ensures resp.state == old(resp.state)
    ensures stop <==> config.fallback.None? && Failed(reply.err, reply.response)
    ensures !stop ==> state == (if Failed(reply.err, reply.response) then Resolved(Start(config), k.policy) else Start(config))
  {
    state := Initial(config);
    if state.namespace.Null? {
      state := state.(namespace := Value(DefaultNamespaceName));
    }
    call := GetRequest(ValueString(state.name), ValueString(state.namespace));
    stop := ReportFailures(resp, state.fallback.Some?, Summary(k), Subject(k, call.namespace, call.name), reply.err, reply.response);
    if stop {
      return;
    }
    if Failed(reply.err, reply.response) {
      state := ApplyFallback(state, k.policy);
    }
  }

  /** The kind-independent part of the success branch of `Read`; the kind's own spec
      projection follows it. */
  method ProjectCommon<CSpec, Spec>(state: DataSourceModel<Spec>, e: Entity<CSpec>) returns (r: DataSourceModel<Spec>)
    ensures r == state.(id := Value(e.metadata.uid), apiVersion := Value(e.apiVersion), kind := Value(e.kind),
                        relations := state.relations + RelationsOf(e.relations), metadata := Some(MetadataOf(e.metadata)))
  {
    r := state.(id := StringValue(e.metadata.uid), apiVersion := StringValue(e.apiVersion), kind := StringValue(e.kind));
    var relations := CopyRelations(e.relations);
    r := r.(relations := r.relations + relations);
    var metadata := CopyMetadata(e.metadata);
    r := r.(metadata := Some(metadata));
  }

  // Properties of the procedure, for every kind.

  /** A null namespace is replaced by `default` before the call; a set one is kept. */
  lemma NamespaceDefaulted<Spec>(config: Config<Spec>)
    ensures RequestOf(config).namespace == (if config.namespace.Null? then "default" else config.namespace.s)
    ensures RequestOf(config).name == config.name
  {
  }

  /** Without a fallback, either failure signal gives exactly one error diagnostic,
      naming `namespace/name` and the cause, and the state is never set. */
  lemma NoFallbackFailure<CSpec, Spec>(k: KindInfo, config: Config<Spec>, reply: Reply<Entity<CSpec>>, specOf: CSpec -> Spec)
    requires config.fallback.None? && Failed(reply.err, reply.response)
    ensures var o := ReadOutcome(k, config, reply, specOf);
      && o.state.None?
      && o.diagnostics == [Diagnostic(Error, Summary(k),
           Subject(k, ValueString(Start(config).namespace), config.name) + ": " +
           (if reply.err.Some? then reply.err.value else reply.response.status), None)]
  {
    var start := Start(config);
    FailureDiagnosticsShape(false, Summary(k), Subject(k, ValueString(start.namespace), config.name), reply.err, reply.response);
  }

  /** With a fallback, a remote failure never produces an error: one warning per firing
      signal (two when both fire), and the state is the defaulted fallback. */
  lemma FallbackOnlyWarns<CSpec, Spec>(k: KindInfo, config: Config<Spec>, reply: Reply<Entity<CSpec>>, specOf: CSpec -> Spec)
    requires config.fallback.Some? && Failed(reply.err, reply.response)
    ensures var o := ReadOutcome(k, config, reply, specOf);
      && OnlyWarnings(o.diagnostics)
      && |o.diagnostics| == SignalCount(reply.err, reply.response)
      && o.state == Some(Resolved(Start(config), k.policy))
  {
    var start := Start(config);
    FailureDiagnosticsShape(true, Summary(k), Subject(k, ValueString(start.namespace), config.name), reply.err, reply.response);
  }

  /** The state is set exactly when the read succeeded or a fallback was configured. */
  lemma StateSetIff<CSpec, Spec>(k: KindInfo, config: Config<Spec>, reply: Reply<Entity<CSpec>>, specOf: CSpec -> Spec)
    ensures ReadOutcome(k, config, reply, specOf).state.Some? <==> !Failed(reply.err, reply.response) || config.fallback.Some?
    ensures HasError(ReadOutcome(k, config, reply, specOf).diagnostics) <==> ReadOutcome(k, config, reply, specOf).state.None?
  {
    var start := Start(config);
    var o := ReadOutcome(k, config, reply, specOf);
    FailureDiagnosticsShape(config.fallback.Some?, Summary(k), Subject(k, ValueString(start.namespace), config.name), reply.err, reply.response);
    if o.state.None? {
      assert o.diagnostics[0].severity == Error;
    }
  }

  /** A successful read adds no diagnostic; the ID is the metadata UID, apiVersion and
      kind are the entity's, name and namespace stay as requested, the relations and
      metadata are the projected ones, and the spec is the kind's projection. */
  lemma SuccessProjects<CSpec, Spec>(k: KindInfo, config: Config<Spec>, reply: Reply<Entity<CSpec>>, specOf: CSpec -> Spec)
    requires !Failed(reply.err, reply.response)
    ensures var o := ReadOutcome(k, config, reply, specOf);
      && o.diagnostics == []
      && o.state.Some?
      && o.state.value.id == Value(reply.value.metadata.uid)
      && o.state.value.apiVersion == Value(reply.value.apiVersion)
      && o.state.value.kind == Value(reply.value.kind)
      && o.state.value.name == Value(config.name)
      && o.state.value.namespace == Start(config).namespace
      && o.state.value.relations == RelationsOf(reply.value.relations)
      && o.state.value.metadata == Some(MetadataOf(reply.value.metadata))
      && o.state.value.spec == Some(specOf(reply.value.spec))
      && o.state.value.fallback == config.fallback
  {
    var start := Start(config);
    FailureDiagnosticsShape(config.fallback.Some?, Summary(k), Subject(k, ValueString(start.namespace), config.name), reply.err, reply.response);
    assert start.relations + RelationsOf(reply.value.relations) == RelationsOf(reply.value.relations);
  }

  /** The per-field defaulting rule: a null field gets the policy's default, a field the
      caller set is unchanged, and without a policy nothing changes. */
  lemma DefaultedFields<Spec>(fb: FallbackModel<Spec>, policy: DefaultPolicy)
    ensures policy.NoDefaults? ==> Defaulted(fb, policy) == fb
    ensures policy.DefaultIdApiVersionKind? ==>
      && Defaulted(fb, policy).id == (if fb.id.Null? then Value(SentinelId) else fb.id)
      && Defaulted(fb, policy).apiVersion == (if fb.apiVersion.Null? then Value(DefaultApiVersion) else fb.apiVersion)
      && Defaulted(fb, policy).kind == (if fb.kind.Null? then Value(policy.kind) else fb.kind)
      && Defaulted(fb, policy).(id := fb.id, apiVersion := fb.apiVersion, kind := fb.kind) == fb
  {
  }

  /** Applying the defaults twice is the same as applying them once. */
  lemma DefaultedIdempotent<Spec>(fb: FallbackModel<Spec>, policy: DefaultPolicy)
    ensures Defaulted(Defaulted(fb, policy), policy) == Defaulted(fb, policy)
  {
  }

  /** On the fallback path the top-level ID, apiVersion and kind equal the (updated)
      fallback's, and reading again with that updated fallback gives the same state. */
  lemma FallbackStable<CSpec, Spec>(k: KindInfo, config: Config<Spec>, reply: Reply<Entity<CSpec>>, specOf: CSpec -> Spec)
    requires config.fallback.Some? && Failed(reply.err, reply.response)
    ensures var s := ReadOutcome(k, config, reply, specOf).state.value;
      && s.fallback.Some?
      && s.id == s.fallback.value.id && s.apiVersion == s.fallback.value.apiVersion && s.kind == s.fallback.value.kind
      && s.name == config.fallback.value.name && s.namespace == config.fallback.value.namespace
      && s.metadata == config.fallback.value.metadata && s.relations == config.fallback.value.relations
      && s.spec == config.fallback.value.spec
      && ReadOutcome(k, config.(fallback := s.fallback), reply, specOf).state == Some(s)
  {
    DefaultedIdempotent(config.fallback.value, k.policy);
  }
}
