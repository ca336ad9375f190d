/** The `backstage_resource` data source: a Resource entity by name, with an optional
    fallback whose null ID, apiVersion and kind are defaulted. */
module ResourceDataSource {
  import opened Framework
  import opened Catalog
  import opened Projection
  import opened ResilientRead

  /** The catalog client's Resource spec. */
  datatype ResourceSpec = ResourceSpec(resourceType: string, owner: string, dependsOn: seq<string>, system: string)

  /** `resourceSpecModel`. */
  datatype ResourceSpecModel = ResourceSpecModel(resourceType: Str, owner: Str, dependsOn: seq<Str>, system: Str)

  type State = DataSourceModel<ResourceSpecModel>

  const Info: KindInfo := KindInfo("Resource", "Resource", DefaultIdApiVersionKind(KindResource))

  function SpecOf(s: ResourceSpec): ResourceSpecModel {
    ResourceSpecModel(StringValue(s.resourceType), StringValue(s.owner), MapSeq(StringValue, s.dependsOn), StringValue(s.system))
  }

  /** Reads a projected spec back into the catalog's shape. */
  function SpecFrom(m: ResourceSpecModel): ResourceSpec {
    ResourceSpec(ValueString(m.resourceType), ValueString(m.owner), MapSeq(ValueString, m.dependsOn), ValueString(m.system))
  }

  /** The projection keeps the type, owner, system and the dependencies in order. */
  lemma SpecRoundTrip(s: ResourceSpec)
    ensures SpecFrom(SpecOf(s)) == s
  {
    MapSeqLeftInverse(StringValue, ValueString, s.dependsOn);
  }

  /** The spec block of `Read`. */
  method ProjectSpec(s: ResourceSpec) returns (r: ResourceSpecModel)
    ensures r == SpecOf(s)
  {
    r := ResourceSpecModel(StringValue(s.resourceType), StringValue(s.owner), [], StringValue(s.system));
    var dependsOn := CopyEach(StringValue, s.dependsOn);
    r := r.(dependsOn := dependsOn);
  }

  function Outcome(config: Config<ResourceSpecModel>, reply: Reply<Entity<ResourceSpec>>): Outcome<State> {
    ReadOutcome(Info, config, reply, SpecOf)
  }

  /** `Read`: the catalog call's result is `reply`; `call` is the request it was issued with. */
  method Read(resp: Response<State>, config: Config<ResourceSpecModel>, reply: Reply<Entity<ResourceSpec>>)
    returns (call: GetRequest)
    modifies resp
    ensures call == RequestOf(config)
    ensures resp.diagnostics == old(resp.diagnostics) + Outcome(config, reply).diagnostics
    ensures resp.state == (if Outcome(config, reply).state.Some? then Outcome(config, reply).state else old(resp.state))
  {
    var state, stop;
    state, call, stop := Begin(resp, Info, config, reply);
    if stop {
      return;
    }
    if !Failed(reply.err, reply.response) {
      state := ProjectCommon(state, reply.value);
      var spec := ProjectSpec(reply.value.spec);
      state := state.(spec := Some(spec));
    }
    resp.SetState(state);
  }

  /** A missing resource whose fallback only names `fallback_artists`: the state has that
      name and the Resource apiVersion and kind defaults. */
  lemma MissingResourceWithFallback(reply: Reply<Entity<ResourceSpec>>)
    requires Failed(reply.err, reply.response)
    ensures var fb := FallbackModel(Null, Value("fallback_artists"), Null, Null, Null, None, [], None);
      var o := Outcome(Config("artist_not_found_resource_a9ab8", Null, Some(fb)), reply);
      && OnlyWarnings(o.diagnostics)
      && o.state.Some?
      && o.state.value.name == Value("fallback_artists")
      && o.state.value.apiVersion == Value("backstage.io/v1alpha1")
      && o.state.value.kind == Value("Resource")
  {
    var fb := FallbackModel(Null, Value("fallback_artists"), Null, Null, Null, None, [], None);
    FallbackOnlyWarns(Info, Config("artist_not_found_resource_a9ab8", Null, Some(fb)), reply, SpecOf);
  }

  /** The same resource without a fallback: a 404 gives no state and one error whose
      detail is the subject for `default/artist_not_found_resource_a9ab8` (the namespace
      defaulted) followed by `: 404 Not Found`. */
  lemma MissingResourceWithoutFallback(value: Entity<ResourceSpec>)
    ensures var o := Outcome(Config("artist_not_found_resource_a9ab8", Null, None), Reply(value, HttpResponse(404, "404 Not Found"), None));
      && o.state.None?
      && o.diagnostics == [Diagnostic(Error, Summary(Info), Subject(Info, "default", "artist_not_found_resource_a9ab8") + ": " + "404 Not Found", None)]
  {
    NoFallbackFailure(Info, Config("artist_not_found_resource_a9ab8", Null, None), Reply(value, HttpResponse(404, "404 Not Found"), None), SpecOf);
  }

  /** The Resource messages: the summary, and a detail that names the namespace before the name. */
  lemma Messages(namespace: string, name: string)
    ensures Summary(Info) == "Error reading Backstage Resource kind"
    ensures Subject(Info, namespace, name) == "Could not read Backstage Resource kind " + namespace + "/" + name
  {
    assert "Could not read Backstage " + "Resource" + " kind " == "Could not read Backstage Resource kind ";
  }
}
