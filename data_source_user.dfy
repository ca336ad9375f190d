/** The `backstage_user` data source: a User entity by name, without a fallback. */
module UserDataSource {
  import opened Framework
  import opened Catalog
  import opened Projection
  import opened ResilientRead

  datatype UserProfile = UserProfile(displayName: string, email: string, picture: string)

  /** The catalog client's User spec. */
  datatype UserSpec = UserSpec(profile: UserProfile, memberOf: seq<string>)

  datatype UserProfileModel = UserProfileModel(displayName: Str, email: Str, picture: Str)

  /** `userSpecModel`. */
  datatype UserSpecModel = UserSpecModel(profile: Option<UserProfileModel>, memberOf: seq<Str>)

  type State = DataSourceModel<UserSpecModel>

  const Info: KindInfo := KindInfo("User", "User", NoDefaults)

  function SpecOf(s: UserSpec): UserSpecModel {
    UserSpecModel(Some(UserProfileModel(StringValue(s.profile.displayName), StringValue(s.profile.email), StringValue(s.profile.picture))),
      MapSeq(StringValue, s.memberOf))
  }

  /** Reads a projected spec back into the catalog's shape. */
  function SpecFrom(m: UserSpecModel): UserSpec {
    var p := if m.profile.Some? then m.profile.value else UserProfileModel(Null, Null, Null);
    UserSpec(UserProfile(ValueString(p.displayName), ValueString(p.email), ValueString(p.picture)), MapSeq(ValueString, m.memberOf))
  }

  /** The projection keeps the profile and the group memberships in order. */
  lemma SpecRoundTrip(s: UserSpec)
    ensures SpecFrom(SpecOf(s)) == s
  {
    MapSeqLeftInverse(StringValue, ValueString, s.memberOf);
  }

  /** The spec block of `Read`: the profile, then the membership loop. */
  method ProjectSpec(s: UserSpec) returns (r: UserSpecModel)
    ensures r == SpecOf(s)
  {
    r := UserSpecModel(Some(UserProfileModel(StringValue(s.profile.displayName), StringValue(s.profile.email), StringValue(s.profile.picture))), []);
    var memberOf := CopyEach(StringValue, s.memberOf);
    r := r.(memberOf := memberOf);
  }

  /** Without a fallback attribute, the configuration is a name and an optional namespace. */
  function ConfigOf(name: string, namespace: Str): Config<UserSpecModel> {
    Config(name, namespace, None)
  }

  function Outcome(name: string, namespace: Str, reply: Reply<Entity<UserSpec>>): Outcome<State> {
    ReadOutcome(Info, ConfigOf(name, namespace), reply, SpecOf)
  }

  /** `Read`: the catalog call's result is `reply`; `call` is the request it was issued with. */
  method Read(resp: Response<State>, name: string, namespace: Str, reply: Reply<Entity<UserSpec>>)
    returns (call: GetRequest)
    modifies resp
    ensures call == RequestOf(ConfigOf(name, namespace))
    ensures resp.diagnostics == old(resp.diagnostics) + Outcome(name, namespace, reply).diagnostics
    ensures resp.state == (if Outcome(name, namespace, reply).state.Some? then Outcome(name, namespace, reply).state else old(resp.state))
  {
    var state, stop;
    state, call, stop := Begin(resp, Info, ConfigOf(name, namespace), reply);
    if stop {
      return;
    }
    state := ProjectCommon(state, reply.value);
    var spec := ProjectSpec(reply.value.spec);
    state := state.(spec := Some(spec));
    resp.SetState(state);
  }

  /** The read either fails with one error naming `namespace/name` and no state, or
      succeeds silently with the user's memberships in order. */
  lemma FailOrProject(name: string, namespace: Str, reply: Reply<Entity<UserSpec>>)
    ensures var o := Outcome(name, namespace, reply);
      && (Failed(reply.err, reply.response) ==> (o.state.None? && |o.diagnostics| == 1 && o.diagnostics[0].severity == Error
            && o.diagnostics[0].detail == Subject(Info, ValueString(OrDefault(namespace, "default")), name) + ": " +
                 (if reply.err.Some? then reply.err.value else reply.response.status)))
      && (!Failed(reply.err, reply.response) ==> (o.diagnostics == [] && o.state.Some? && o.state.value.spec.Some?
            && |o.state.value.spec.value.memberOf| == |reply.value.spec.memberOf|
            && forall i :: 0 <= i < |reply.value.spec.memberOf| ==> o.state.value.spec.value.memberOf[i] == Value(reply.value.spec.memberOf[i])))
  {
    if Failed(reply.err, reply.response) {
      NoFallbackFailure(Info, ConfigOf(name, namespace), reply, SpecOf);
    } else {
      SuccessProjects(Info, ConfigOf(name, namespace), reply, SpecOf);
      forall i | 0 <= i < |reply.value.spec.memberOf|
        ensures |MapSeq(StringValue, reply.value.spec.memberOf)| == |reply.value.spec.memberOf|
        ensures MapSeq(StringValue, reply.value.spec.memberOf)[i] == Value(reply.value.spec.memberOf[i])
      {
        MapSeqAt(StringValue, reply.value.spec.memberOf, i);
      }
      if reply.value.spec.memberOf != [] {
        MapSeqAt(StringValue, reply.value.spec.memberOf, 0);
      }
    }
  }
}
