/** The `backstage_location` resource: registers a location (a URL the catalog ingests)
    on create, refreshes its type and target on read, does nothing on update, and
    unregisters it on delete. Each operation accepts exactly one status code. */
module LocationResource {
  import opened Framework
  import opened Format
  import opened Catalog

  /** `locationResourceModel`; `lastUpdated` is the RFC 850 time of the last create. */
  datatype LocationModel = LocationModel(id: Str, locationType: Str, target: Str, lastUpdated: Str)

  /** A location as the catalog reports it. */
  datatype Location = Location(id: string, locationType: string, target: string)

  /** `Locations.Create(ctx, target, dryRun)`. */
  datatype CreateRequest = CreateRequest(target: string, dryRun: bool)

  const CreateSummary: string := "Error creating location"
  const ReadSummary: string := "Error reading Backstage location"
  const DeleteSummary: string := "Error deleting Backstage location"

  /** The diagnostics an operation adds and the state it sets, if any. */
  datatype Result = Result(diagnostics: seq<Diagnostic>, state: Option<LocationModel>)

  function ErrorOnly(summary: string, detail: string): Result {
    Result([Diagnostic(Error, summary, detail, None)], None)
  }

  /** `Create`: only 201 Created is a success; the state is then the catalog's ID, type
      and target, stamped with the time `now`. */
  function CreateResult(reply: Reply<Location>, now: string): Result {
    if reply.err.Some? then ErrorOnly(CreateSummary, "Could not create location, unexpected error: " + reply.err.value)
    else if reply.response.statusCode != StatusCreated then
      ErrorOnly(CreateSummary, "Could not create location, unexpected status code: " + Itoa(reply.response.statusCode))
    else Result([], Some(LocationModel(Value(reply.value.id), Value(reply.value.locationType), Value(reply.value.target), Value(now))))
  }

  /** `Read`: only 200 OK is a success; the state is then the prior one with the
      catalog's target and type. */
  function ReadResult(state: LocationModel, reply: Reply<Location>): Result {
    var id := ValueString(state.id);
    if reply.err.Some? then ErrorOnly(ReadSummary, "Could not read Backstage location ID " + id + ": " + reply.err.value)
    else if reply.response.statusCode != StatusOK then
      ErrorOnly(ReadSummary, "Could not read Backstage location ID " + id + ", unexpected status code: " + Itoa(reply.response.statusCode))
    else Result([], Some(state.(target := Value(reply.value.target), locationType := Value(reply.value.locationType))))
  }

  /** `Delete`: only 204 No Content is a success; the state itself is left alone (the
      framework drops it when no error was added). */
  function DeleteDiagnostics(response: HttpResponse, err: Option<string>): seq<Diagnostic> {
    if err.Some? then [Diagnostic(Error, DeleteSummary, "Could not delete location, unexpected error: " + err.value, None)]
    else if response.statusCode != StatusNoContent then
      [Diagnostic(Error, DeleteSummary, "Could not delete location, unexpected status code: " + Itoa(response.statusCode), None)]
    else []
  }

  /** `ImportState`: the imported ID becomes the state's ID; everything else is null
      until the next read. */
  function Imported(id: string): (m: LocationModel)
    ensures m.id == Value(id) && m.target.Null? && m.locationType.Null? && m.lastUpdated.Null?
  {
    LocationModel(Value(id), Null, Null, Null)
  }

  method Create(resp: Response<LocationModel>, plan: LocationModel, reply: Reply<Location>, now: string)
    returns (call: CreateRequest)
    modifies resp
    ensures call == CreateRequest(ValueString(plan.target), false)
    ensures resp.diagnostics == old(resp.diagnostics) + CreateResult(reply, now).diagnostics
    ensures resp.state == (if CreateResult(reply, now).state.Some? then CreateResult(reply, now).state else old(resp.state))
  {
    call := CreateRequest(ValueString(plan.target), false);
    if reply.err.Some? {
      resp.AddError(CreateSummary, "Could not create location, unexpected error: " + reply.err.value);
      return;
    }
    if reply.response.statusCode != StatusCreated {
      resp.AddError(CreateSummary, "Could not create location, unexpected status code: " + Itoa(reply.response.statusCode));
      return;
    }
    var m := plan;
    m := m.(id := Value(reply.value.id), locationType := Value(reply.value.locationType), target := Value(reply.value.target));
    m := m.(lastUpdated := Value(now));
    resp.SetState(m);
  }

  /** `call` is the ID the location is fetched by. */
  method Read(resp: Response<LocationModel>, state: LocationModel, reply: Reply<Location>)
    returns (call: string)
    modifies resp
    ensures call == ValueString(state.id)
    ensures resp.diagnostics == old(resp.diagnostics) + ReadResult(state, reply).diagnostics
    ensures resp.state == (if ReadResult(state, reply).state.Some? then ReadResult(state, reply).state else old(resp.state))
  {
    call := ValueString(state.id);
    if reply.err.Some? {
      resp.AddError(ReadSummary, "Could not read Backstage location ID " + call + ": " + reply.err.value);
      return;
    }
    if reply.response.statusCode != StatusOK {
      resp.AddError(ReadSummary, "Could not read Backstage location ID " + call + ", unexpected status code: " + Itoa(reply.response.statusCode));
      return;
    }
    var m := state;
    m := m.(target := Value(reply.value.target));
    m := m.(locationType := Value(reply.value.locationType));
    resp.SetState(m);
  }

  /** `Update` reads the plan and the state and changes nothing. */
  method Update(resp: Response<LocationModel>, plan: LocationModel, state: LocationModel)
    ensures resp.diagnostics == old(resp.diagnostics) && resp.state == old(resp.state)
  {
  }

  /** `call` is the ID the location is deleted by. */
  method Delete(resp: Response<LocationModel>, state: LocationModel, response: HttpResponse, err: Option<string>)
    returns (call: string)
    modifies resp
    ensures call == ValueString(state.id)
    ensures resp.diagnostics == old(resp.diagnostics) + DeleteDiagnostics(response, err)
    ensures resp.state == old(resp.state)
  {
    call := ValueString(state.id);
    if err.Some? {
      resp.AddError(DeleteSummary, "Could not delete location, unexpected error: " + err.value);
      return;
    }
    if response.statusCode != StatusNoContent {
      resp.AddError(DeleteSummary, "Could not delete location, unexpected status code: " + Itoa(response.statusCode));
      return;
    }
  }

  // Properties of the operations.

  /** A create either succeeds silently or adds exactly one error and sets no state; it
      succeeds exactly when there is no transport error and the status is 201 (a 200
      is a failure). */
  lemma CreateSucceedsIff(reply: Reply<Location>, now: string)
    ensures var r := CreateResult(reply, now);
      && (r.state.Some? <==> reply.err.None? && reply.response.statusCode == 201)
      && (r.state.Some? <==> r.diagnostics == [])
      && (r.state.None? ==> |r.diagnostics| == 1 && HasError(r.diagnostics))
  {
    var r := CreateResult(reply, now);
    if r.state.None? {
      assert r.diagnostics[0].severity == Error;
    }
  }

  /** A read either succeeds silently or adds exactly one error and sets no state; it
      succeeds exactly when there is no transport error and the status is 200. */
  lemma ReadSucceedsIff(prior: LocationModel, reply: Reply<Location>)
    ensures var r := ReadResult(prior, reply);
      && (r.state.Some? <==> reply.err.None? && reply.response.statusCode == 200)
      && (r.state.Some? <==> r.diagnostics == [])
      && (r.state.None? ==> |r.diagnostics| == 1 && HasError(r.diagnostics))
  {
    var r := ReadResult(prior, reply);
    if r.state.None? {
      assert r.diagnostics[0].severity == Error;
    }
  }

  /** A delete adds nothing exactly when there is no transport error and the status is
      204, and otherwise exactly one error. */
  lemma DeleteSucceedsIff(response: HttpResponse, err: Option<string>)
    ensures DeleteDiagnostics(response, err) == [] <==> err.None? && response.statusCode == 204
    ensures DeleteDiagnostics(response, err) != [] ==>
      |DeleteDiagnostics(response, err)| == 1 && HasError(DeleteDiagnostics(response, err))
  {
    var ds := DeleteDiagnostics(response, err);
    if ds != [] {
      assert ds[0].severity == Error;
    }
  }

  /** A read changes only the target and type: the ID and the creation stamp survive. */
  lemma ReadKeepsIdentity(prior: LocationModel, reply: Reply<Location>)
    requires ReadResult(prior, reply).state.Some?
    ensures var s := ReadResult(prior, reply).state.value;
      s.id == prior.id && s.lastUpdated == prior.lastUpdated &&
      s.target == Value(reply.value.target) && s.locationType == Value(reply.value.locationType)
  {
  }

  /** Reading back the location a create stored, unchanged in the catalog, reproduces
      the created state, and a second read with the same reply changes nothing. */
  lemma ReadAfterCreate(created: Reply<Location>, now: string, read: Reply<Location>)
    requires CreateResult(created, now).state.Some?
    requires read.err.None? && read.response.statusCode == StatusOK && read.value == created.value
    ensures var s := CreateResult(created, now).state.value;
      && ReadResult(s, read).state == Some(s)
      && ReadResult(ReadResult(s, read).state.value, read) == ReadResult(s, read)
  {
  }

  /** After an import, a successful read fills in the target and type of the imported
      ID; the creation stamp stays null. */
  lemma ReadAfterImport(id: string, reply: Reply<Location>)
    requires reply.err.None? && reply.response.statusCode == StatusOK
    ensures ReadResult(Imported(id), reply).state == Some(LocationModel(Value(id), Value(reply.value.locationType), Value(reply.value.target), Null))
  {
  }

  /** A rejected status is reported as its decimal code, which reads back as that code. */
  lemma UnexpectedStatusReported(reply: Reply<Location>, now: string)
    requires reply.err.None? && reply.response.statusCode != StatusCreated
    requires MinInt64 <= reply.response.statusCode <= MaxInt64
    ensures var d := CreateResult(reply, now).diagnostics[0].detail;
      var prefix := "Could not create location, unexpected status code: ";
      && d == prefix + Itoa(reply.response.statusCode)
      && Atoi(d[|prefix|..]) == ParsedInt(reply.response.statusCode, true)
  {
    var prefix := "Could not create location, unexpected status code: ";
    var d := prefix + Itoa(reply.response.statusCode);
    assert d[|prefix|..] == Itoa(reply.response.statusCode);
    AtoiOfItoa(reply.response.statusCode);
  }
}
