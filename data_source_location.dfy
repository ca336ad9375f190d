/** The `backstage_location` data source: a Location entity by name, with an optional
    fallback whose null ID, apiVersion and kind are defaulted. */
module LocationDataSource {
  import opened Framework
  import opened Catalog
  import opened Projection
  import opened ResilientRead

  /** The catalog client's Location spec. */
  datatype LocationSpec = LocationSpec(locationType: string, target: string, targets: seq<string>, presence: string)

  /** `locationSpecModel`. */
  datatype LocationSpecModel = LocationSpecModel(locationType: Str, target: Str, targets: seq<Str>, presence: Str)

  type State = DataSourceModel<LocationSpecModel>

  const Info: KindInfo := KindInfo("Location", "Location", DefaultIdApiVersionKind(KindLocation))

  function SpecOf(s: LocationSpec): LocationSpecModel {
    LocationSpecModel(StringValue(s.locationType), StringValue(s.target), MapSeq(StringValue, s.targets), StringValue(s.presence))
  }

  /** Reads a projected spec back into the catalog's shape. */
  function SpecFrom(m: LocationSpecModel): LocationSpec {
    LocationSpec(ValueString(m.locationType), ValueString(m.target), MapSeq(ValueString, m.targets), ValueString(m.presence))
  }

  /** The projection keeps the type, target, presence and the targets in order. */
  lemma SpecRoundTrip(s: LocationSpec)
    ensures SpecFrom(SpecOf(s)) == s
  {
    MapSeqLeftInverse(StringValue, ValueString, s.targets);
  }

  /** The spec block of `Read`. */
  method ProjectSpec(s: LocationSpec) returns (r: LocationSpecModel)
    ensures r == SpecOf(s)
  {
    r := LocationSpecModel(StringValue(s.locationType), StringValue(s.target), [], StringValue(s.presence));
    var targets := CopyEach(StringValue, s.targets);
    r := r.(targets := targets);
  }

  function Outcome(config: Config<LocationSpecModel>, reply: Reply<Entity<LocationSpec>>): Outcome<State> {
    ReadOutcome(Info, config, reply, SpecOf)
  }

  /** `Read`: the catalog call's result is `reply`; `call` is the request it was issued with. */
  method Read(resp: Response<State>, config: Config<LocationSpecModel>, reply: Reply<Entity<LocationSpec>>)
    returns (call: GetRequest)
    modifies resp
    ensures call == RequestOf(config)
    ensures resp.diagnostics == old(resp.diagnostics) + Outcome(config, reply).diagnostics
    ensures resp.state == (if Outcome(config, reply).state.Some? then Outcome(config, reply).state else old(resp.state))
  {
    var state, stop;
    state, call, stop := Begin(resp, Info, config, reply);
    if stop {
      return;
    }
    if !Failed(reply.err, reply.response) {
      state := ProjectCommon(state, reply.value);
      var spec := ProjectSpec(reply.value.spec);
      state := state.(spec := Some(spec));
    }
    resp.SetState(state);
  }

  /** A fallback with only a name: when both failure signals fire there are two
      warnings, and the state has the fallback's name, the Location defaults and a
      null namespace (the fallback's, not the requested one). */
  lemma NameOnlyFallback(value: Entity<LocationSpec>, err: string, response: HttpResponse)
    requires response.statusCode != StatusOK
    ensures var fb := FallbackModel(Null, Value("fallback_location"), Null, Null, Null, None, [], None);
      var o := Outcome(Config("missing_location", Null, Some(fb)), Reply(value, response, Some(err)));
      && |o.diagnostics| == 2 && OnlyWarnings(o.diagnostics)
      && o.state.Some?
      && o.state.value.name == Value("fallback_location")
      && o.state.value.namespace == Null
      && o.state.value.id == Value("123456789")
      && o.state.value.apiVersion == Value("backstage.io/v1alpha1")
      && o.state.value.kind == Value("Location")
  {
    var fb := FallbackModel(Null, Value("fallback_location"), Null, Null, Null, None, [], None);
    FallbackOnlyWarns(Info, Config("missing_location", Null, Some(fb)), Reply(value, response, Some(err)), SpecOf);
  }
}
