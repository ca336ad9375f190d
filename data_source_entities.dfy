/** The `backstage_entities` data source: every entity matching a list of filters,
    sorted by name, each with its spec as JSON; an optional fallback replaces the
    whole result when the catalog cannot be read. */
module EntitiesDataSource {
  import opened Framework
  import opened Format
  import opened Catalog
  import opened Projection
  import opened ResilientRead

  /** What `json.Marshal` made of an entity's spec. The marshalling itself is not
      modelled: each listed entity carries its outcome. */
  datatype Marshalled = Marshalled(json: string) | MarshalError(message: string)

  /** `entityModel`: one listed entity, its spec as normalized JSON text. */
  datatype EntityModel = EntityModel(apiVersion: Str, spec: Str, kind: Str, metadata: Option<MetadataModel>, relations: seq<RelationModel>)

  /** `entityFallbackModel`. */
  datatype EntitiesFallback = EntitiesFallback(id: Str, filters: seq<string>, entities: seq<EntityModel>)

  /** `entityDataSourceModel`. */
  datatype EntitiesModel = EntitiesModel(id: Str, filters: seq<string>, entities: seq<EntityModel>, fallback: Option<EntitiesFallback>)

  /** What the configuration supplies: the filters and the optional fallback. */
  datatype EntitiesConfig = EntitiesConfig(filters: seq<string>, fallback: Option<EntitiesFallback>)

  datatype ListOrder = ListOrder(field: string, direction: string)

  /** `ListEntityOptions`: the filters and the sort order of the list call. */
  datatype ListOptions = ListOptions(filters: seq<string>, order: seq<ListOrder>)

  type Listed = Entity<Marshalled>

  const ReadSummary: string := "Error reading Backstage entities"
  const ParseSummary: string := "Error parsing Backstage entity specs"

  /** The list call: the configured filters, ascending by `metadata.name`. */
  function ListRequest(config: EntitiesConfig): (r: ListOptions)
    ensures r.filters == config.filters
    ensures r.order == [ListOrder("metadata.name", "asc")]
  {
    ListOptions(config.filters, [ListOrder("metadata.name", "asc")])
  }

  /** `Could not read Backstage entities <filters as %v>`. */
  function Subject(filters: seq<string>): string {
    "Could not read Backstage entities " + SprintStrings(filters)
  }

  /** The error for an entity whose spec could not be marshalled. */
  function ParseDiagnostic(e: Listed): Diagnostic
    requires e.spec.MarshalError?
  {
    Diagnostic(Error, ParseSummary, "Could not parse Specs for Backstage entity " + e.metadata.name + ": " + e.spec.message, None)
  }

  /** One listed entity's projection. */
  function EntityOf(e: Listed): EntityModel
    requires e.spec.Marshalled?
  {
    EntityModel(StringValue(e.apiVersion), Value(e.spec.json), StringValue(e.kind), Some(MetadataOf(e.metadata)), RelationsOf(e.relations))
  }

  /** The entities the loop keeps: those whose spec marshalled, in list order. */
  function Kept(es: seq<Listed>): seq<EntityModel>
    decreases |es|
  {
    if es == [] then []
    else
      var last := es[|es| - 1];
      Kept(es[..|es| - 1]) + (if last.spec.Marshalled? then [EntityOf(last)] else [])
  }

  /** The errors the loop adds: one per entity whose spec did not marshal, in list order. */
  function ParseDiagnostics(es: seq<Listed>): seq<Diagnostic>
    decreases |es|
  {
    if es == [] then []
    else
      var last := es[|es| - 1];
      ParseDiagnostics(es[..|es| - 1]) + (if last.spec.MarshalError? then [ParseDiagnostic(last)] else [])
  }

  /** The fallback after its ID default. */
  function DefaultedFallback(fb: EntitiesFallback): EntitiesFallback {
    fb.(id := OrDefault(fb.id, SentinelId))
  }

  /** What `Read` does with a configuration and the list call's reply. */
  function ReadResult(config: EntitiesConfig, reply: Reply<seq<Listed>>): Outcome<EntitiesModel> {
    var diags := FailureDiagnostics(config.fallback.Some?, ReadSummary, Subject(config.filters), reply.err, reply.response);
    if !Failed(reply.err, reply.response) then
      Outcome(diags + ParseDiagnostics(reply.value),
              Some(EntitiesModel(Value(SprintStrings(config.filters)), config.filters, Kept(reply.value), config.fallback)))
    else if config.fallback.None? then Outcome(diags, None)
    else
      var fb := DefaultedFallback(config.fallback.value);
      Outcome(diags, Some(EntitiesModel(fb.id, fb.filters, fb.entities, Some(fb))))
  }

  /** The body of the entity loop for one entity that marshalled. */
  method ProjectEntity(e: Listed) returns (r: EntityModel)
    requires e.spec.Marshalled?
    ensures r == EntityOf(e)
  {
    r := EntityModel(StringValue(e.apiVersion), Value(e.spec.json), StringValue(e.kind), None, []);
    var relations := CopyRelations(e.relations);
    r := r.(relations := r.relations + relations);
    var metadata := CopyMetadata(e.metadata);
    r := r.(metadata := Some(metadata));
  }

  /** `Read`: the list call's result is `reply`; `call` is the options it was issued with. */
  method Read(resp: Response<EntitiesModel>, config: EntitiesConfig, reply: Reply<seq<Listed>>)
    returns (call: ListOptions)
    modifies resp
    ensures call == ListRequest(config)
    ensures resp.diagnostics == old(resp.diagnostics) + ReadResult(config, reply).diagnostics
    ensures resp.state == (if ReadResult(config, reply).state.Some? then ReadResult(config, reply).state else old(resp.state))
  {
    var state := EntitiesModel(Null, config.filters, [], config.fallback);
    call := ListOptions(state.filters, [ListOrder("metadata.name", "asc")]);
    var stop := ReportFailures(resp, state.fallback.Some?, ReadSummary, Subject(state.filters), reply.err, reply.response);
    if stop {
      return;
    }
    if Failed(reply.err, reply.response) {
      var fb := state.fallback.value;
      if fb.id.Null? {
        fb := fb.(id := Value(SentinelId));
      }
      state := state.(fallback := Some(fb));
      state := state.(id := fb.id, filters := fb.filters, entities := fb.entities);
    } else {
      state := state.(id := Value(SprintStrings(state.filters)));
      var entities := ProjectEntities(resp, reply.value);
      state := state.(entities := entities);
    }
    resp.SetState(state);
  }

  /** The entity loop: an entity whose spec did not marshal is reported and skipped,
      every other one is projected and appended. */
  method ProjectEntities(resp: Response<EntitiesModel>, es: seq<Listed>) returns (entities: seq<EntityModel>)
    modifies resp
    ensures entities == Kept(es)
    ensures resp.diagnostics == old(resp.diagnostics) + ParseDiagnostics(es)
    ensures resp.state == old(resp.state)
  {
    entities := [];
    for i := 0 to |es|
      invariant resp.diagnostics == old(resp.diagnostics) + ParseDiagnostics(es[..i])
      invariant resp.state == old(resp.state)
      invariant entities == Kept(es[..i])
    {
      assert es[..i + 1][..i] == es[..i];
      var e := es[i];
      if e.spec.MarshalError? {
        resp.AddError(ParseSummary, "Could not parse Specs for Backstage entity " + e.metadata.name + ": " + e.spec.message);
      } else {
        var entity := ProjectEntity(e);
        entities := entities + [entity];
      }
    }
    assert es[..|es|] == es;
  }

  // Properties of the listing.

  /** Every listed entity is either kept or reported, never both and never lost. */
  lemma {:induction false} KeptOrReported(es: seq<Listed>)
    ensures |Kept(es)| + |ParseDiagnostics(es)| == |es|
    decreases |es|
  {
    if es != [] {
      KeptOrReported(es[..|es| - 1]);
    }
  }

  /** The loop over `a + b` keeps what the loops over `a` and then `b` keep. */
  lemma {:induction false} KeptAppend(a: seq<Listed>, b: seq<Listed>)
    ensures Kept(a + b) == Kept(a) + Kept(b)
    ensures ParseDiagnostics(a + b) == ParseDiagnostics(a) + ParseDiagnostics(b)
    decreases |b|
  {
    if b == [] {
      assert a + b == a;
    } else {
      var b' := b[..|b| - 1];
      assert (a + b)[..|a + b| - 1] == a + b';
      KeptAppend(a, b');
    }
  }

  /** When every spec marshals, the result has every listed entity, in the catalog's
      order (by name), and no parse error. */
  lemma {:induction false} AllMarshalled(es: seq<Listed>)
    requires forall i :: 0 <= i < |es| ==> es[i].spec.Marshalled?
    ensures ParseDiagnostics(es) == []
    ensures |Kept(es)| == |es|
    ensures forall i :: 0 <= i < |es| ==> Kept(es)[i] == EntityOf(es[i])
    decreases |es|
  {
    if es != [] {
      var init := es[..|es| - 1];
      AllMarshalled(init);
    }
  }

  /** Every parse diagnostic is an error. */
  lemma {:induction false} ParseDiagnosticsAreErrors(es: seq<Listed>)
    ensures forall i :: 0 <= i < |ParseDiagnostics(es)| ==> ParseDiagnostics(es)[i].severity == Error && ParseDiagnostics(es)[i].summary == ParseSummary
    decreases |es|
  {
    if es != [] {
      ParseDiagnosticsAreErrors(es[..|es| - 1]);
    }
  }

  /** A spec that cannot be marshalled does not stop the read: the state is still set,
      without that entity, next to an error naming it. */
  lemma UnparseableSpecStillSets(config: EntitiesConfig, reply: Reply<seq<Listed>>, e: Listed)
    requires !Failed(reply.err, reply.response) && e.spec.MarshalError?
    ensures var o := ReadResult(config, reply.(value := reply.value + [e]));
      && o.state.Some?
      && o.state.value.entities == Kept(reply.value)
      && o.diagnostics == ReadResult(config, reply).diagnostics + [ParseDiagnostic(e)]
      && HasError(o.diagnostics)
  {
    KeptAppend(reply.value, [e]);
    var o := ReadResult(config, reply.(value := reply.value + [e]));
    assert o.diagnostics[|o.diagnostics| - 1] == ParseDiagnostic(e);
  }

  /** A successful listing's ID is the filters printed as `%v`: with two filters,
      `[<first> <second>]`. */
  lemma SuccessId(config: EntitiesConfig, reply: Reply<seq<Listed>>, first: string, second: string)
    requires !Failed(reply.err, reply.response) && config.filters == [first, second]
    ensures ReadResult(config, reply).state.value.id == Value("[" + first + " " + second + "]")
  {
    assert [first, second][1..] == [second];
    assert Join([first, second], " ") == first + " " + second;
  }

  /** Without a fallback a failed listing sets nothing and reports one error about the
      filters; with one it reports only warnings and takes the fallback, its ID
      defaulted to the placeholder when null. */
  lemma FailedListing(config: EntitiesConfig, reply: Reply<seq<Listed>>)
    requires Failed(reply.err, reply.response)
    ensures config.fallback.None? ==>
      && ReadResult(config, reply).state.None?
      && ReadResult(config, reply).diagnostics == [Diagnostic(Error, ReadSummary,
           Subject(config.filters) + ": " + (if reply.err.Some? then reply.err.value else reply.response.status), None)]
    ensures config.fallback.Some? ==>
      && OnlyWarnings(ReadResult(config, reply).diagnostics)
      && ReadResult(config, reply).state.value.id == OrDefault(config.fallback.value.id, "123456789")
      && ReadResult(config, reply).state.value.entities == config.fallback.value.entities
      && ReadResult(config, reply).state.value.filters == config.fallback.value.filters
  {
    FailureDiagnosticsShape(config.fallback.Some?, ReadSummary, Subject(config.filters), reply.err, reply.response);
  }
}
