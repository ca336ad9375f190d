/** The `backstage_api` data source: an API entity by name, without a fallback. */
module ApiDataSource {
  import opened Framework
  import opened Catalog
  import opened Projection
  import opened ResilientRead

  /** The catalog client's API spec; `definition` is the API's definition text. */
  datatype ApiSpec = ApiSpec(apiType: string, lifecycle: string, owner: string, definition: string, system: string)

  /** `apiSpecModel`. */
  datatype ApiSpecModel = ApiSpecModel(apiType: Str, lifecycle: Str, owner: Str, definition: Str, system: Str)

  type State = DataSourceModel<ApiSpecModel>

  const Info: KindInfo := KindInfo("API", "API", NoDefaults)

  function SpecOf(s: ApiSpec): ApiSpecModel {
    ApiSpecModel(StringValue(s.apiType), StringValue(s.lifecycle), StringValue(s.owner), StringValue(s.definition), StringValue(s.system))
  }

  /** Without a fallback attribute, the configuration is a name and an optional namespace. */
  function ConfigOf(name: string, namespace: Str): Config<ApiSpecModel> {
    Config(name, namespace, None)
  }

  function Outcome(name: string, namespace: Str, reply: Reply<Entity<ApiSpec>>): Outcome<State> {
    ReadOutcome(Info, ConfigOf(name, namespace), reply, SpecOf)
  }

  /** `Read`: the catalog call's result is `reply`; `call` is the request it was issued with. */
  method Read(resp: Response<State>, name: string, namespace: Str, reply: Reply<Entity<ApiSpec>>)
    returns (call: GetRequest)
    modifies resp
    ensures call == RequestOf(ConfigOf(name, namespace))
    ensures resp.diagnostics == old(resp.diagnostics) + Outcome(name, namespace, reply).diagnostics
    ensures resp.state == (if Outcome(name, namespace, reply).state.Some? then Outcome(name, namespace, reply).state else old(resp.state))
  {
    var state, stop;
    state, call, stop := Begin(resp, Info, ConfigOf(name, namespace), reply);
    if stop {
      return;
    }
    state := ProjectCommon(state, reply.value);
    state := state.(spec := Some(SpecOf(reply.value.spec)));
    resp.SetState(state);
  }

  /** The read either fails with one error and no state, or succeeds silently with
      every field of the API's spec: type, lifecycle, owner, definition and system. */
  lemma FailOrProject(name: string, namespace: Str, reply: Reply<Entity<ApiSpec>>)
    ensures var o := Outcome(name, namespace, reply);
      && (Failed(reply.err, reply.response) ==> (o.state.None? && |o.diagnostics| == 1 && o.diagnostics[0].severity == Error))
      && (!Failed(reply.err, reply.response) ==> (o.diagnostics == [] && o.state.Some?
            && o.state.value.spec.Some?
            && o.state.value.spec.value.apiType == Value(reply.value.spec.apiType)
            && o.state.value.spec.value.lifecycle == Value(reply.value.spec.lifecycle)
            && o.state.value.spec.value.owner == Value(reply.value.spec.owner)
            && o.state.value.spec.value.definition == Value(reply.value.spec.definition)
            && o.state.value.spec.value.system == Value(reply.value.spec.system)))
  {
    if Failed(reply.err, reply.response) {
      NoFallbackFailure(Info, ConfigOf(name, namespace), reply, SpecOf);
    } else {
      SuccessProjects(Info, ConfigOf(name, namespace), reply, SpecOf);
    }
  }
}
