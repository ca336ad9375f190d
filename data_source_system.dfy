/** The `backstage_system` data source: a System entity by name, with an optional
    fallback whose null ID, apiVersion and kind are defaulted. */
module SystemDataSource {
  import opened Framework
  import opened Catalog
  import opened Projection
  import opened ResilientRead

  /** The catalog client's System spec. */
  datatype SystemSpec = SystemSpec(owner: string, domain: string)

  /** `systemSpecModel`. */
  datatype SystemSpecModel = SystemSpecModel(owner: Str, domain: Str)

  type State = DataSourceModel<SystemSpecModel>

  const Info: KindInfo := KindInfo("System", "System", DefaultIdApiVersionKind(KindSystem))

  function SpecOf(s: SystemSpec): SystemSpecModel {
    SystemSpecModel(StringValue(s.owner), StringValue(s.domain))
  }

  function Outcome(config: Config<SystemSpecModel>, reply: Reply<Entity<SystemSpec>>): Outcome<State> {
    ReadOutcome(Info, config, reply, SpecOf)
  }

  /** `Read`: the catalog call's result is `reply`; `call` is the request it was issued with. */
  method Read(resp: Response<State>, config: Config<SystemSpecModel>, reply: Reply<Entity<SystemSpec>>)
    returns (call: GetRequest)
    modifies resp
    ensures call == RequestOf(config)
    ensures resp.diagnostics == old(resp.diagnostics) + Outcome(config, reply).diagnostics
    ensures resp.state == (if Outcome(config, reply).state.Some? then Outcome(config, reply).state else old(resp.state))
  {
    var state, stop;
    state, call, stop := Begin(resp, Info, config, reply);
    if stop {
      return;
    }
    if !Failed(reply.err, reply.response) {
      state := ProjectCommon(state, reply.value);
      state := state.(spec := Some(SpecOf(reply.value.spec)));
    }
    resp.SetState(state);
  }

  /** A successful read exposes the system's owner and domain under `spec`. */
  lemma SpecExposed(config: Config<SystemSpecModel>, reply: Reply<Entity<SystemSpec>>)
    requires !Failed(reply.err, reply.response)
    ensures var o := Outcome(config, reply);
      && o.state.Some? && o.state.value.spec.Some?
      && o.state.value.spec.value.owner == Value(reply.value.spec.owner)
      && o.state.value.spec.value.domain == Value(reply.value.spec.domain)
  {
    SuccessProjects(Info, config, reply, SpecOf);
  }

  /** A fallback that sets its own ID, apiVersion and kind keeps them. */
  lemma FallbackKeepsSetFields(reply: Reply<Entity<SystemSpec>>, fb: FallbackModel<SystemSpecModel>)
    requires Failed(reply.err, reply.response)
    requires fb.id.Value? && fb.apiVersion.Value? && fb.kind.Value?
    ensures var o := Outcome(Config("system", Null, Some(fb)), reply);
      && o.state == Some(DataSourceModel(fb.id, fb.name, fb.namespace, fb.apiVersion, fb.kind, fb.metadata, fb.relations, fb.spec, Some(fb)))
  {
    DefaultedFields(fb, Info.policy);
  }
}
