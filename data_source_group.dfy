/** The `backstage_group` data source: a Group entity by name, with an optional
    fallback whose null ID, apiVersion and kind are defaulted. */
module GroupDataSource {
  import opened Framework
  import opened Catalog
  import opened Projection
  import opened ResilientRead

  datatype GroupProfile = GroupProfile(displayName: string, email: string, picture: string)

  /** The catalog client's Group spec. */
  datatype GroupSpec = GroupSpec(groupType: string, profile: GroupProfile, parent: string, children: seq<string>, members: seq<string>)

  datatype GroupProfileModel = GroupProfileModel(displayName: Str, email: Str, picture: Str)

  /** `groupSpecModel`. */
  datatype GroupSpecModel = GroupSpecModel(groupType: Str, profile: Option<GroupProfileModel>, parent: Str, children: seq<Str>, members: seq<Str>)

  type State = DataSourceModel<GroupSpecModel>

  const Info: KindInfo := KindInfo("Group", "Group", DefaultIdApiVersionKind(KindGroup))

  function ProfileOf(p: GroupProfile): GroupProfileModel {
    GroupProfileModel(StringValue(p.displayName), StringValue(p.email), StringValue(p.picture))
  }

  /** The projected spec always carries a profile. */
  function SpecOf(s: GroupSpec): GroupSpecModel {
    GroupSpecModel(StringValue(s.groupType), Some(ProfileOf(s.profile)), StringValue(s.parent),
      MapSeq(StringValue, s.children), MapSeq(StringValue, s.members))
  }

  /** Reads a projected spec back into the catalog's shape. */
  function SpecFrom(m: GroupSpecModel): GroupSpec {
    var p := if m.profile.Some? then m.profile.value else GroupProfileModel(Null, Null, Null);
    GroupSpec(ValueString(m.groupType), GroupProfile(ValueString(p.displayName), ValueString(p.email), ValueString(p.picture)),
      ValueString(m.parent), MapSeq(ValueString, m.children), MapSeq(ValueString, m.members))
  }

  /** The projection keeps the type, the profile, the parent, and the children and
      members in order. */
  lemma SpecRoundTrip(s: GroupSpec)
    ensures SpecFrom(SpecOf(s)) == s
  {
    MapSeqLeftInverse(StringValue, ValueString, s.children);
    MapSeqLeftInverse(StringValue, ValueString, s.members);
  }

  /** The spec block of `Read`. */
  method ProjectSpec(s: GroupSpec) returns (r: GroupSpecModel)
    ensures r == SpecOf(s)
  {
    r := GroupSpecModel(StringValue(s.groupType), Some(ProfileOf(s.profile)), StringValue(s.parent), [], []);
    var children := CopyEach(StringValue, s.children);
    var members := CopyEach(StringValue, s.members);
    r := r.(children := children, members := members);
  }

  function Outcome(config: Config<GroupSpecModel>, reply: Reply<Entity<GroupSpec>>): Outcome<State> {
    ReadOutcome(Info, config, reply, SpecOf)
  }

  /** `Read`: the catalog call's result is `reply`; `call` is the request it was issued with. */
  method Read(resp: Response<State>, config: Config<GroupSpecModel>, reply: Reply<Entity<GroupSpec>>)
    returns (call: GetRequest)
    modifies resp
    ensures call == RequestOf(config)
    ensures resp.diagnostics == old(resp.diagnostics) + Outcome(config, reply).diagnostics
    ensures resp.state == (if Outcome(config, reply).state.Some? then Outcome(config, reply).state else old(resp.state))
  {
    var state, stop;
    state, call, stop := Begin(resp, Info, config, reply);
    if stop {
      return;
    }
    if !Failed(reply.err, reply.response) {
      state := ProjectCommon(state, reply.value);
      var spec := ProjectSpec(reply.value.spec);
      state := state.(spec := Some(spec));
    }
    resp.SetState(state);
  }

  /** A 404 for a missing team with a fallback that names `fallback_team` with parent
      `backstage`: one warning, no error, the fallback's name and parent, and the Group
      defaults for the ID, apiVersion and kind it left out. */
  lemma MissingTeamWithFallback(value: Entity<GroupSpec>)
    ensures var spec := GroupSpecModel(Null, None, Value("backstage"), [], []);
      var fb := FallbackModel(Null, Value("fallback_team"), Null, Null, Null, None, [], Some(spec));
      var o := Outcome(Config("team_does_not_compute", Value("default"), Some(fb)), Reply(value, HttpResponse(404, "404 Not Found"), None));
      && |o.diagnostics| == 1 && o.diagnostics[0].severity == Warning
      && o.state.Some?
      && o.state.value.name == Value("fallback_team")
      && o.state.value.spec == Some(spec)
      && o.state.value.id == Value("123456789")
      && o.state.value.apiVersion == Value("backstage.io/v1alpha1")
      && o.state.value.kind == Value("Group")
  {
    var spec := GroupSpecModel(Null, None, Value("backstage"), [], []);
    var fb := FallbackModel(Null, Value("fallback_team"), Null, Null, Null, None, [], Some(spec));
    var reply := Reply(value, HttpResponse(404, "404 Not Found"), None);
    FallbackOnlyWarns(Info, Config("team_does_not_compute", Value("default"), Some(fb)), reply, SpecOf);
  }

  /** The same read without a fallback: no state and exactly one error, whose detail
      names `default/team_does_not_compute` and the 404 status. */
  lemma MissingTeamWithoutFallback(value: Entity<GroupSpec>)
    ensures var o := Outcome(Config("team_does_not_compute", Value("default"), None), Reply(value, HttpResponse(404, "404 Not Found"), None));
      && o.state.None?
      && o.diagnostics == [Diagnostic(Error, Summary(Info), Subject(Info, "default", "team_does_not_compute") + ": " + "404 Not Found", None)]
  {
    NoFallbackFailure(Info, Config("team_does_not_compute", Value("default"), None), Reply(value, HttpResponse(404, "404 Not Found"), None), SpecOf);
  }

  /** The Group messages: the summary, and a detail that names the namespace before the name. */
  lemma Messages(namespace: string, name: string)
    ensures Summary(Info) == "Error reading Backstage Group kind"
    ensures Subject(Info, namespace, name) == "Could not read Backstage Group kind " + namespace + "/" + name
  {
    assert "Could not read Backstage " + "Group" + " kind " == "Could not read Backstage Group kind ";
  }
}
