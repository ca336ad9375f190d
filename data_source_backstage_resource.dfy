/** The earlier `backstage_resource` data source: the same Resource read without a
    fallback. */
module BackstageResourceDataSource {
  import opened Framework
  import opened Catalog
  import opened ResilientRead
  import ResourceDataSource

  type Spec = ResourceDataSource.ResourceSpec
  type SpecModel = ResourceDataSource.ResourceSpecModel
  type State = DataSourceModel<SpecModel>

  const Info: KindInfo := KindInfo("Resource", "Resource", NoDefaults)

  /** Without a fallback attribute, the configuration is a name and an optional namespace. */
  function ConfigOf(name: string, namespace: Str): Config<SpecModel> {
    Config(name, namespace, None)
  }

  function Outcome(name: string, namespace: Str, reply: Reply<Entity<Spec>>): Outcome<State> {
    ReadOutcome(Info, ConfigOf(name, namespace), reply, ResourceDataSource.SpecOf)
  }

  /** `Read`: the catalog call's result is `reply`; `call` is the request it was issued with. */
  method Read(resp: Response<State>, name: string, namespace: Str, reply: Reply<Entity<Spec>>)
    returns (call: GetRequest)
    modifies resp
    ensures call == RequestOf(ConfigOf(name, namespace))
    ensures resp.diagnostics == old(resp.diagnostics) + Outcome(name, namespace, reply).diagnostics
    ensures resp.state == (if Outcome(name, namespace, reply).state.Some? then Outcome(name, namespace, reply).state else old(resp.state))
  {
    var state, stop;
    state, call, stop := Begin(resp, Info, ConfigOf(name, namespace), reply);
    if stop {
      return;
    }
    state := ProjectCommon(state, reply.value);
    var spec := ResourceDataSource.ProjectSpec(reply.value.spec);
    state := state.(spec := Some(spec));
    resp.SetState(state);
  }

  /** The read either fails with one error and no state, or succeeds silently with the
      projected Resource; it differs from the fallback-capable Resource read only when
      a fallback is configured. */
  lemma FailOrProject(name: string, namespace: Str, reply: Reply<Entity<Spec>>)
    ensures var o := Outcome(name, namespace, reply);
      && (Failed(reply.err, reply.response) ==> (o.state.None? && |o.diagnostics| == 1 && o.diagnostics[0].severity == Error))
      && (!Failed(reply.err, reply.response) ==> (o.diagnostics == [] && o.state.Some?
            && o.state.value.spec == Some(ResourceDataSource.SpecOf(reply.value.spec))))
      && o == ResourceDataSource.Outcome(ConfigOf(name, namespace), reply)
  {
    if Failed(reply.err, reply.response) {
      NoFallbackFailure(Info, ConfigOf(name, namespace), reply, ResourceDataSource.SpecOf);
    } else {
      SuccessProjects(Info, ConfigOf(name, namespace), reply, ResourceDataSource.SpecOf);
    }
  }
}
