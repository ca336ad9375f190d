/** The `backstage_component` data source: a Component entity by name, with an
    optional fallback that is used verbatim (no field of it is defaulted). */
module ComponentDataSource {
  import opened Framework
  import opened Catalog
  import opened Projection
  import opened ResilientRead

  /** The catalog client's Component spec. */
  datatype ComponentSpec = ComponentSpec(
    componentType: string,
    lifecycle: string,
    owner: string,
    subcomponentOf: string,
    providesApis: seq<string>,
    consumesApis: seq<string>,
    dependsOn: seq<string>,
    system: string)

  /** `componentSpecModel`. */
  datatype ComponentSpecModel = ComponentSpecModel(
    componentType: Str,
    lifecycle: Str,
    owner: Str,
    subcomponentOf: Str,
    providesApis: seq<Str>,
    consumesApis: seq<Str>,
    dependsOn: seq<Str>,
    system: Str)

  type State = DataSourceModel<ComponentSpecModel>

  const Info: KindInfo := KindInfo("Component", "Component", NoDefaults)

  function SpecOf(s: ComponentSpec): ComponentSpecModel {
    ComponentSpecModel(
      StringValue(s.componentType), StringValue(s.lifecycle), StringValue(s.owner), StringValue(s.subcomponentOf),
      MapSeq(StringValue, s.providesApis), MapSeq(StringValue, s.consumesApis), MapSeq(StringValue, s.dependsOn),
      StringValue(s.system))
  }

  /** Reads a projected spec back into the catalog's shape. */
  function SpecFrom(m: ComponentSpecModel): ComponentSpec {
    ComponentSpec(
      ValueString(m.componentType), ValueString(m.lifecycle), ValueString(m.owner), ValueString(m.subcomponentOf),
      MapSeq(ValueString, m.providesApis), MapSeq(ValueString, m.consumesApis), MapSeq(ValueString, m.dependsOn),
      ValueString(m.system))
  }

  /** The projection keeps every spec field, and the three API/dependency lists in order. */
  lemma SpecRoundTrip(s: ComponentSpec)
    ensures SpecFrom(SpecOf(s)) == s
  {
    MapSeqLeftInverse(StringValue, ValueString, s.providesApis);
    MapSeqLeftInverse(StringValue, ValueString, s.consumesApis);
    MapSeqLeftInverse(StringValue, ValueString, s.dependsOn);
  }

  /** The spec block of `Read`: the scalars, then one append loop per list. */
  method ProjectSpec(s: ComponentSpec) returns (r: ComponentSpecModel)
    ensures r == SpecOf(s)
  {
    r := ComponentSpecModel(
      StringValue(s.componentType), StringValue(s.lifecycle), StringValue(s.owner), StringValue(s.subcomponentOf),
      [], [], [], StringValue(s.system));
    var providesApis := CopyEach(StringValue, s.providesApis);
    var consumesApis := CopyEach(StringValue, s.consumesApis);
    var dependsOn := CopyEach(StringValue, s.dependsOn);
    r := r.(providesApis := providesApis, consumesApis := consumesApis, dependsOn := dependsOn);
  }

  function Outcome(config: Config<ComponentSpecModel>, reply: Reply<Entity<ComponentSpec>>): Outcome<State> {
    ReadOutcome(Info, config, reply, SpecOf)
  }

  /** `Read`: the catalog call's result is `reply`; `call` is the request it was issued with. */
  method Read(resp: Response<State>, config: Config<ComponentSpecModel>, reply: Reply<Entity<ComponentSpec>>)
    returns (call: GetRequest)
    modifies resp
    ensures call == RequestOf(config)
    ensures resp.diagnostics == old(resp.diagnostics) + Outcome(config, reply).diagnostics
    ensures resp.state == (if Outcome(config, reply).state.Some? then Outcome(config, reply).state else old(resp.state))
  {
    var state, stop;
    state, call, stop := Begin(resp, Info, config, reply);
    if stop {
      return;
    }
    if !Failed(reply.err, reply.response) {
      state := ProjectCommon(state, reply.value);
      var spec := ProjectSpec(reply.value.spec);
      state := state.(spec := Some(spec));
    }
    resp.SetState(state);
  }

  /** A successful read exposes the component's system and owner, and its provided
      APIs in the catalog's order, with no diagnostic. */
  lemma SystemExposed(config: Config<ComponentSpecModel>, reply: Reply<Entity<ComponentSpec>>)
    requires !Failed(reply.err, reply.response)
    ensures var o := Outcome(config, reply);
      && o.diagnostics == [] && o.state.Some? && o.state.value.spec.Some?
      && o.state.value.spec.value.system == Value(reply.value.spec.system)
      && o.state.value.spec.value.owner == Value(reply.value.spec.owner)
      && |o.state.value.spec.value.providesApis| == |reply.value.spec.providesApis|
      && forall i :: 0 <= i < |reply.value.spec.providesApis| ==>
           o.state.value.spec.value.providesApis[i] == Value(reply.value.spec.providesApis[i])
  {
    SuccessProjects(Info, config, reply, SpecOf);
    var apis := reply.value.spec.providesApis;
    if apis != [] {
      MapSeqAt(StringValue, apis, 0);
    }
    forall i | 0 <= i < |apis|
      ensures MapSeq(StringValue, apis)[i] == Value(apis[i])
    {
      MapSeqAt(StringValue, apis, i);
    }
  }

  /** A Component fallback is used as written: with an ID, kind, name and namespace but
      no apiVersion or metadata, a failed read leaves apiVersion and metadata unset and
      takes the fallback's kind and name, with warnings only. */
  lemma FallbackUsedVerbatim(reply: Reply<Entity<ComponentSpec>>)
    requires Failed(reply.err, reply.response)
    ensures var fb := FallbackModel(Value("123456"), Value("fallback_component"), Value("default"), Null, Value("Component"), None, [], None);
      var o := Outcome(Config("non_existent_component_a9ab8", Value("default"), Some(fb)), reply);
      && OnlyWarnings(o.diagnostics)
      && o.state.Some?
      && o.state.value.kind == Value("Component")
      && o.state.value.name == Value("fallback_component")
      && o.state.value.id == Value("123456")
      && o.state.value.apiVersion.Null?
      && o.state.value.metadata.None?
  {
    var fb := FallbackModel(Value("123456"), Value("fallback_component"), Value("default"), Null, Value("Component"), None, [], None);
    FallbackOnlyWarns(Info, Config("non_existent_component_a9ab8", Value("default"), Some(fb)), reply, SpecOf);
  }
}
