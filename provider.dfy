/** The provider's `Configure`: resolves the base URL, default namespace, extra
    headers, retry count and timeout from the configuration and the environment
    (checking each), assembles the HTTP client and creates the catalog client. */
module Provider {
  import opened Framework
  import opened Format
  import opened Transport

  /** A provider attribute as the configuration gives it. */
  datatype ConfigValue<T> = NullValue | UnknownValue | KnownValue(value: T)

  /** `backstageProviderModel`. */
  datatype ProviderConfig = ProviderConfig(
    baseUrl: ConfigValue<string>,
    defaultNamespace: ConfigValue<string>,
    headers: ConfigValue<map<string, string>>,
    retries: ConfigValue<int>,
    timeoutSeconds: ConfigValue<int>)

  /** The arguments of `backstage.NewClient(baseURL, defaultNamespace, httpClient)`;
      the catalog client itself is represented by them. */
  datatype ClientArgs = ClientArgs(baseUrl: string, defaultNamespace: string, httpClient: HttpClient)

  /** What `Configure` produces: its diagnostics, the `NewClient` call it made (if it
      got that far) and the client it hands to data sources and resources (nil is `None`). */
  datatype ConfigureOutcome = ConfigureOutcome(problems: seq<ConfigProblem>, call: Option<ClientArgs>, data: Option<ClientArgs>)

  const EnvBaseUrl: string := "BACKSTAGE_BASE_URL"
  const EnvDefaultNamespace: string := "BACKSTAGE_DEFAULT_NAMESPACE"
  const EnvHeaders: string := "BACKSTAGE_HEADERS"
  const EnvRetries: string := "BACKSTAGE_RETRIES"
  const EnvTimeoutSeconds: string := "BACKSTAGE_TIMEOUT_SECONDS"

  const DefaultTimeoutSeconds: int := 15

  /** `os.Getenv`: the empty string for an unset variable. */
  function Getenv(env: map<string, string>, key: string): string {
    if key in env then env[key] else ""
  }

  /** `types.Int64.ValueInt64()`: 0 for null and unknown. */
  function ValueInt64(x: ConfigValue<int>): int {
    if x.KnownValue? then x.value else 0
  }

  // The diagnostics.

  /** A problem `Configure` reports; `DiagnosticOf` gives its text. */
  datatype ConfigProblem =
    | UnknownBaseUrl
    | UnknownDefaultNamespace
    | InvalidBaseUrl
    | InvalidDefaultNamespace
    | InvalidRetries
    | InvalidTimeout
    | ClientCreationFailed(err: string)

  function UnknownDetail(env: string): string {
    "Either target apply the source of the value first, set the value statically in the configuration, or use the " + env + " environment variable."
  }

  function InvalidSettingDetail(what: string, env: string): string {
    "The provider cannot create the Backstage API client as there is " + what + ". Set the host value in the configuration or use the " +
    env + " environment variable. If either is already set, ensure the value is not empty and valid."
  }

  function InvalidNumberDetail(what: string, env: string): string {
    "The provider cannot create the Backstage API client as there is invalid value for the " + what + ": " + env + "."
  }

  function SummaryOf(p: ConfigProblem): string {
    match p
    case UnknownBaseUrl => "Unknown Base URL of Backstage instance"
    case UnknownDefaultNamespace => "Unknown default entities namespace of Backstage instance"
    case InvalidBaseUrl => "Missing or invalid Base URL of Backstage instance"
    case InvalidDefaultNamespace => "Invalid default namespace of Backstage instance"
    case InvalidRetries => "Invalid number of retries"
    case InvalidTimeout => "Invalid timeout for requests to the Backstage API"
    case ClientCreationFailed(_) => "Unable to create Backstage API client"
  }

  function DetailOf(p: ConfigProblem): string {
    match p
    case UnknownBaseUrl => UnknownDetail(EnvBaseUrl)
    case UnknownDefaultNamespace => UnknownDetail(EnvDefaultNamespace)
    case InvalidBaseUrl => InvalidSettingDetail("empty or invalid value for the Backstage Base URL", EnvBaseUrl)
    case InvalidDefaultNamespace => InvalidSettingDetail("invalid value for the default namespace", EnvDefaultNamespace)
    case InvalidRetries => InvalidNumberDetail("number of retries", EnvRetries)
    case InvalidTimeout => InvalidNumberDetail("timeout for requests to the Backstage API", EnvTimeoutSeconds)
    case ClientCreationFailed(err) => "An unexpected error occurred when creating the Backstage API client: " + err
  }

  /** The attribute a problem is reported on: none for a failure to create the client. */
  function AttributeOf(p: ConfigProblem): (r: Option<string>)
    ensures r.None? <==> p.ClientCreationFailed?
  {
    match p
    case UnknownBaseUrl => Some("base_url")
    case UnknownDefaultNamespace => Some("default_namespace")
    case InvalidBaseUrl => Some("base_url")
    case InvalidDefaultNamespace => Some("default_namespace")
    case InvalidRetries => Some("retries")
    case InvalidTimeout => Some("timeout_seconds")
    case ClientCreationFailed(_) => None
  }

  /** The diagnostic added for each problem: always an error, on the problem's attribute. */
  function DiagnosticOf(p: ConfigProblem): (d: Diagnostic)
    ensures d.severity == Error && d.attribute == AttributeOf(p)
  {
    Diagnostic(Error, SummaryOf(p), DetailOf(p), AttributeOf(p))
  }

  /** The diagnostics of a list of problems, in order. */
  function Diagnostics(ps: seq<ConfigProblem>): seq<Diagnostic> {
    seq(|ps|, i requires 0 <= i < |ps| => DiagnosticOf(ps[i]))
  }


  // `patternURL`, `https?://.+`, searched anywhere in the string (it is not anchored).

  predicate HasAt(s: string, p: string, i: nat) {
    i + |p| <= |s| && s[i..i + |p|] == p
  }

  /** A match of `https?://.+` starting at `i`: a scheme and at least one character
      other than a newline. */
  predicate UrlMatchAt(s: string, i: nat) {
    || (HasAt(s, "http://", i) && i + 7 < |s| && s[i + 7] != '\n')
    || (HasAt(s, "https://", i) && i + 8 < |s| && s[i + 8] != '\n')
  }

  predicate MatchesUrlPattern(s: string) {
    exists i :: 0 <= i < |s| && UrlMatchAt(s, i)
  }

  /** The base-URL check: non-empty and containing a match of the pattern. */
  predicate ValidBaseUrl(s: string) {
    s != "" && MatchesUrlPattern(s)
  }

  // The `BACKSTAGE_HEADERS` syntax: every match of `(.*?)=([^=]*)(?:,|$)`, in order,
  // with leftmost-first semantics: the earliest start, the shortest key, then the
  // longest value that is followed by a comma (consumed) or by the end of the text.

  /** The first index at or after `i` that holds `=`, or `|t|`. */
  function NextEquals(t: string, i: nat): (r: nat)
    requires i <= |t|
    ensures i <= r <= |t|
    decreases |t| - i
  {
    if i == |t| || t[i] == '=' then i else NextEquals(t, i + 1)
  }

  /** `[^=]*(?:,|$)` after the value start `i`, trying ends from `j` downwards: the first
      end that is the end of the text or followed by a comma. */
  function ValueEnd(t: string, i: nat, j: nat): (r: Option<nat>)
    requires i <= j <= |t|
    ensures r.Some? ==> i <= r.value <= j
    decreases j - i
  {
    if j == |t| || t[j] == ',' then Some(j)
    else if j == i then None
    else ValueEnd(t, i, j - 1)
  }

  /** The value part starting at `i`; it cannot run past the next `=`. */
  function ValueMatch(t: string, i: nat): (r: Option<nat>)
    requires i <= |t|
    ensures r.Some? ==> i <= r.value <= |t|
  {
    ValueEnd(t, i, NextEquals(t, i))
  }

  /** The lazy key, tried with its `=` at `e`, then `e + 1`, ...; the key cannot contain
      a newline. Returns the index of the `=` and the end of the value. */
  function KeyMatch(t: string, e: nat): (r: Option<(nat, nat)>)
    requires e <= |t|
    ensures r.Some? ==> e <= r.value.0 < |t| && t[r.value.0] == '=' && r.value.0 + 1 <= r.value.1 <= |t|
    decreases |t| - e
  {
    if e == |t| then None
    else if t[e] == '=' && ValueMatch(t, e + 1).Some? then Some((e, ValueMatch(t, e + 1).value))
    else if t[e] == '\n' then None
    else KeyMatch(t, e + 1)
  }

  /** One match: the key is `[start, equals)`, the value `(equals, valueEnd)`. */
  datatype PairMatch = PairMatch(start: nat, equals: nat, valueEnd: nat)

  /** The leftmost match starting at `s` or later. */
  function MatchFrom(t: string, s: nat): (r: Option<PairMatch>)
    requires s <= |t|
    ensures r.Some? ==> s <= r.value.start <= r.value.equals < |t| && r.value.equals + 1 <= r.value.valueEnd <= |t|
    decreases |t| - s
  {
    if s == |t| then None
    else
      var m := KeyMatch(t, s);
      if m.Some? then Some(PairMatch(s, m.value.0, m.value.1)) else MatchFrom(t, s + 1)
  }

  /** `FindAllStringSubmatch(t, -1)` reduced to its two groups: each match's key and
      value, in order; the search resumes after the consumed comma. */
  function FindPairs(t: string): seq<(string, string)>
    decreases |t|
  {
    match NextPair(t)
    case None => []
    case Some((pair, rest)) => [pair] + FindPairs(rest)
  }

  /** The groups of the leftmost match and the text after it (past the consumed comma). */
  function NextPair(t: string): (r: Option<((string, string), string)>)
    ensures r.Some? ==> |r.value.1| < |t|
  {
    var m := MatchFrom(t, 0);
    if m.None? then None
    else
      var next := if m.value.valueEnd < |t| then m.value.valueEnd + 1 else m.value.valueEnd;
      Some(((t[m.value.start..m.value.equals], t[m.value.equals + 1..m.value.valueEnd]), t[next..]))
  }

  /** `headers[kv[1]] = kv[2]` for each match in order: a later key overwrites. */
  function PairsToMap(pairs: seq<(string, string)>): map<string, string>
    decreases |pairs|
  {
    if pairs == [] then map[]
    else
      var last := pairs[|pairs| - 1];
      PairsToMap(pairs[..|pairs| - 1])[last.0 := last.1]
  }

  // Resolution of each setting.

  /** The configured base URL when not null, otherwise `BACKSTAGE_BASE_URL`. */
  function ResolveBaseUrl(config: ProviderConfig, env: map<string, string>): string {
    if config.baseUrl.KnownValue? then config.baseUrl.value else Getenv(env, EnvBaseUrl)
  }

  /** The configured namespace when not null, otherwise `BACKSTAGE_DEFAULT_NAMESPACE`;
      empty means `default`. */
  function ResolveNamespace(config: ProviderConfig, env: map<string, string>): (r: string)
    ensures r != ""
  {
    var n := if config.defaultNamespace.KnownValue? then config.defaultNamespace.value else Getenv(env, EnvDefaultNamespace);
    if n == "" then DefaultNamespaceName else n
  }

  /** `BACKSTAGE_HEADERS` when non-empty, otherwise the configured map (an unknown map
      reads as empty). */
  function ResolveHeaders(config: ProviderConfig, env: map<string, string>): map<string, string> {
    if Getenv(env, EnvHeaders) != "" then PairsToMap(FindPairs(Getenv(env, EnvHeaders)))
    else if config.headers.KnownValue? then config.headers.value
    else map[]
  }

  /** `BACKSTAGE_RETRIES` through `Atoi` when non-empty, otherwise the configured value
      (0 when null). */
  function ResolveRetries(config: ProviderConfig, env: map<string, string>): ParsedInt {
    if Getenv(env, EnvRetries) != "" then Atoi(Getenv(env, EnvRetries))
    else ParsedInt(ValueInt64(config.retries), true)
  }

  /** `BACKSTAGE_TIMEOUT_SECONDS` through `Atoi` when non-empty, otherwise the configured
      value, 15 when null (and 0 when unknown). */
  function ResolveTimeout(config: ProviderConfig, env: map<string, string>): ParsedInt {
    if Getenv(env, EnvTimeoutSeconds) != "" then Atoi(Getenv(env, EnvTimeoutSeconds))
    else if config.timeoutSeconds.NullValue? then ParsedInt(DefaultTimeoutSeconds, true)
    else ParsedInt(ValueInt64(config.timeoutSeconds), true)
  }

  /** The HTTP client: with retries, a retrying client whose attempts time out after
      `timeoutSeconds` wrapped as a standard client (no overall timeout); without, a
      plain client with that timeout. Either way its transport is then wrapped in a
      headers transport over the previous one. */
  function BuildHttpClient(retries: int, timeoutSeconds: int, headers: map<string, string>): HttpClient {
    var base := if retries > 0 then HttpClient(Some(RetryingTransport(retries, timeoutSeconds)), 0) else HttpClient(None, timeoutSeconds);
    base.(transport := Some(Headers(HeadersTransport(headers, base.transport))))
  }

  /** The errors of the checks before the client is built, given which of them fail. */
  function CheckErrors(badBaseUrl: bool, badNamespace: bool, badRetries: bool): (r: seq<ConfigProblem>)
    ensures r == [] <==> !badBaseUrl && !badNamespace && !badRetries
  {
    (if badBaseUrl then [InvalidBaseUrl] else []) +
    (if badNamespace then [InvalidDefaultNamespace] else []) +
    (if badRetries then [InvalidRetries] else [])
  }

  /** The settings as resolved from the configuration and the environment. */
  datatype Settings = Settings(baseUrl: string, defaultNamespace: string, headers: map<string, string>, retries: ParsedInt, timeout: ParsedInt)

  function Resolve(config: ProviderConfig, env: map<string, string>): Settings {
    Settings(ResolveBaseUrl(config, env), ResolveNamespace(config, env), ResolveHeaders(config, env),
             ResolveRetries(config, env), ResolveTimeout(config, env))
  }

  /** The problems found by the checks before the client is built. */
  function ValidationErrors(st: Settings): seq<ConfigProblem> {
    CheckErrors(!ValidBaseUrl(st.baseUrl), !MatchesEntityNamePattern(st.defaultNamespace), !st.retries.ok)
  }

  /** The errors for attributes whose value is not known yet. */
  function UnknownErrors(config: ProviderConfig): seq<ConfigProblem> {
    (if config.baseUrl.UnknownValue? then [UnknownBaseUrl] else []) +
    (if config.defaultNamespace.UnknownValue? then [UnknownDefaultNamespace] else [])
  }

  /** The `NewClient` call made with the resolved settings. */
  function ClientArgsOf(st: Settings): ClientArgs {
    ClientArgs(st.baseUrl, st.defaultNamespace, BuildHttpClient(st.retries.value, st.timeout.value, st.headers))
  }

  /** What follows once the values are known: the checks, which stop before the client
      is built; then a bad timeout, which is reported but does not stop the client
      being created; then `NewClient`'s outcome. */
  function Proceed(st: Settings, newClientErr: Option<string>): ConfigureOutcome {
    if ValidationErrors(st) != [] then ConfigureOutcome(ValidationErrors(st), None, None)
    else
      var timeoutErrors := if st.timeout.ok then [] else [InvalidTimeout];
      var args := ClientArgsOf(st);
      if newClientErr.Some? then ConfigureOutcome(timeoutErrors + [ClientCreationFailed(newClientErr.value)], Some(args), None)
      else ConfigureOutcome(timeoutErrors, Some(args), Some(args))
  }

  /** What `Configure` does with a configuration, the environment and the outcome of
      `NewClient` (`newClientErr`). */
  function ConfigureResult(config: ProviderConfig, env: map<string, string>, newClientErr: Option<string>): ConfigureOutcome {
    if UnknownErrors(config) != [] then ConfigureOutcome(UnknownErrors(config), None, None)
    else Proceed(Resolve(config, env), newClientErr)
  }

  /** The `BACKSTAGE_HEADERS` loop. */
  method ParseHeadersEnv(value: string) returns (headers: map<string, string>)
    ensures headers == PairsToMap(FindPairs(value))
  {
    headers := map[];
    var matches := FindPairs(value);
    for i := 0 to |matches|
      invariant headers == PairsToMap(matches[..i])
    {
      assert matches[..i + 1][..i] == matches[..i];
      headers := headers[matches[i].0 := matches[i].1];
    }
    assert matches[..|matches|] == matches;
  }

  /** The base URL block: `BACKSTAGE_BASE_URL`, overridden by a non-null configuration. */
  method BaseUrlStep(config: ProviderConfig, env: map<string, string>) returns (baseUrl: string)
    ensures baseUrl == ResolveBaseUrl(config, env)
    ensures config.baseUrl.NullValue? ==> baseUrl == Getenv(env, EnvBaseUrl)
  {
    baseUrl := Getenv(env, EnvBaseUrl);
    if !config.baseUrl.NullValue? && config.baseUrl.KnownValue? {
      baseUrl := config.baseUrl.value;
    }
  }

  /** The namespace block; an empty result becomes `default`. */
  method NamespaceStep(config: ProviderConfig, env: map<string, string>) returns (defaultNamespace: string)
    ensures defaultNamespace == ResolveNamespace(config, env)
    ensures defaultNamespace != ""
  {
    defaultNamespace := Getenv(env, EnvDefaultNamespace);
    if !config.defaultNamespace.NullValue? && config.defaultNamespace.KnownValue? {
      defaultNamespace := config.defaultNamespace.value;
    }
    if defaultNamespace == "" {
      defaultNamespace := DefaultNamespaceName;
    }
  }

  /** The headers block: `BACKSTAGE_HEADERS` when set, otherwise the configured map. */
  method HeadersStep(config: ProviderConfig, env: map<string, string>) returns (headers: map<string, string>)
    ensures headers == ResolveHeaders(config, env)
  {
    headers := map[];
    var headersEnv := Getenv(env, EnvHeaders);
    if headersEnv != "" {
      headers := ParseHeadersEnv(headersEnv);
    } else if !config.headers.NullValue? {
      headers := if config.headers.KnownValue? then config.headers.value else map[];
    }
  }

  /** The retries block: `BACKSTAGE_RETRIES` through `Atoi` when set, otherwise the
      configured value; `ok` is false exactly when `Atoi` failed. */
  method RetriesStep(config: ProviderConfig, env: map<string, string>) returns (retries: int, ok: bool)
    ensures ParsedInt(retries, ok) == ResolveRetries(config, env)
  {
    retries := 0;
    ok := true;
    var retriesStr := Getenv(env, EnvRetries);
    if retriesStr != "" {
      var parsed := Atoi(retriesStr);
      retries := parsed.value;
      ok := parsed.ok;
    } else if !config.retries.NullValue? {
      retries := ValueInt64(config.retries);
    }
  }

  /** The timeout block: 15 unless `BACKSTAGE_TIMEOUT_SECONDS` or the configuration says
      otherwise. */
  method TimeoutStep(config: ProviderConfig, env: map<string, string>) returns (timeoutSeconds: int, ok: bool)
    ensures ParsedInt(timeoutSeconds, ok) == ResolveTimeout(config, env)
  {
    timeoutSeconds := DefaultTimeoutSeconds;
    ok := true;
    var timeoutSecondsStr := Getenv(env, EnvTimeoutSeconds);
    if timeoutSecondsStr != "" {
      var parsed := Atoi(timeoutSecondsStr);
      timeoutSeconds := parsed.value;
      ok := parsed.ok;
    } else if !config.timeoutSeconds.NullValue? {
      timeoutSeconds := ValueInt64(config.timeoutSeconds);
    }
  }

  /** The client assembly block. */
  method HttpClientStep(retries: int, timeoutSeconds: int, headers: map<string, string>) returns (client: HttpClient)
    ensures client == BuildHttpClient(retries, timeoutSeconds, headers)
  {
    client := HttpClient(None, timeoutSeconds);
    if retries > 0 {
      client := HttpClient(Some(RetryingTransport(retries, client.timeoutSeconds)), 0);
    }
    client := client.(transport := Some(Headers(HeadersTransport(headers, client.transport))));
  }

  /** `Configure`. The diagnostics are collected in order; `call` is the `NewClient`
      call and `data` the client handed on. */
  method Configure(config: ProviderConfig, env: map<string, string>, newClientErr: Option<string>)
    returns (problems: seq<ConfigProblem>, call: Option<ClientArgs>, data: Option<ClientArgs>)
    ensures ConfigureOutcome(problems, call, data) == ConfigureResult(config, env, newClientErr)
  {
    problems := [];
    call := None;
    data := None;
    if config.baseUrl.UnknownValue? {
      problems := problems + [UnknownBaseUrl];
    }
    if config.defaultNamespace.UnknownValue? {
      problems := problems + [UnknownDefaultNamespace];
    }
    assert problems == UnknownErrors(config);
    if problems != [] {
      return;
    }

    var baseUrl := BaseUrlStep(config, env);
    var badBaseUrl := baseUrl == "" || !MatchesUrlPattern(baseUrl);
    if badBaseUrl {
      problems := problems + [InvalidBaseUrl];
    }
    var defaultNamespace := NamespaceStep(config, env);
    var badNamespace := !MatchesEntityNamePattern(defaultNamespace);
    if badNamespace {
      problems := problems + [InvalidDefaultNamespace];
    }
    var headers := HeadersStep(config, env);
    var retries, retriesOk := RetriesStep(config, env);
    if !retriesOk {
      problems := problems + [InvalidRetries];
    }
    assert problems == CheckErrors(badBaseUrl, badNamespace, !retriesOk);
    assert problems == ValidationErrors(Resolve(config, env));
    if problems != [] {
      return;
    }

    var timeoutSeconds, timeoutOk := TimeoutStep(config, env);
    if !timeoutOk {
      problems := problems + [InvalidTimeout];
    }
    var client := HttpClientStep(retries, timeoutSeconds, headers);
    call := Some(ClientArgs(baseUrl, defaultNamespace, client));
    assert call == Some(ClientArgsOf(Resolve(config, env)));
    if newClientErr.Some? {
      problems := problems + [ClientCreationFailed(newClientErr.value)];
    } else {
      data := call;
    }
  }

  // Properties of the `BACKSTAGE_HEADERS` syntax.

  /** A key that can be written in `BACKSTAGE_HEADERS` and read back as it is. */
  predicate PlainKey(k: string) {
    forall i :: 0 <= i < |k| ==> k[i] != '=' && k[i] != ',' && k[i] != '\n'
  }

  /** A value that can be written in `BACKSTAGE_HEADERS` and read back as it is. */
  predicate PlainValue(v: string) {
    forall i :: 0 <= i < |v| ==> v[i] != '=' && v[i] != ','
  }

  predicate PlainPairs(pairs: seq<(string, string)>) {
    forall i :: 0 <= i < |pairs| ==> PlainKey(pairs[i].0) && PlainValue(pairs[i].1)
  }

  /** The documented syntax: `key=value` pairs separated by commas. */
  function Render(pairs: seq<(string, string)>): string
    decreases |pairs|
  {
    if pairs == [] then ""
    else pairs[0].0 + "=" + pairs[0].1 + (if |pairs| == 1 then "" else "," + Render(pairs[1..]))
  }

  lemma {:induction false} NextEqualsAt(t: string, i: nat, r: nat)
    requires i <= r <= |t| && (r == |t| || t[r] == '=')
    requires forall m :: i <= m < r ==> t[m] != '='
    ensures NextEquals(t, i) == r
    decreases r - i
  {
    if i < r {
      NextEqualsAt(t, i + 1, r);
    }
  }

  lemma {:induction false} ValueEndAt(t: string, i: nat, c: nat, j: nat)
    requires i <= c <= j <= |t| && (c == |t| || t[c] == ',')
    requires forall m :: c < m <= j ==> m < |t| && t[m] != ','
    ensures ValueEnd(t, i, j) == Some(c)
    decreases j - c
  {
    if c < j {
      ValueEndAt(t, i, c, j - 1);
    }
  }

  lemma {:induction false} KeyMatchAt(t: string, e: nat, q: nat, j: nat)
    requires e <= q < |t| && t[q] == '=' && ValueMatch(t, q + 1) == Some(j)
    requires forall m :: e <= m < q ==> t[m] != '=' && t[m] != '\n'
    ensures KeyMatch(t, e) == Some((q, j))
    decreases q - e
  {
    if e < q {
      KeyMatchAt(t, e + 1, q, j);
    }
  }

  /** A rendered list is its first pair, then a comma and the rest when there is more. */
  lemma RenderShape(pairs: seq<(string, string)>)
    requires pairs != []
    ensures Render(pairs) == pairs[0].0 + "=" + pairs[0].1 + (if |pairs| == 1 then "" else "," + Render(pairs[1..]))
    ensures |Render(pairs)| >= |pairs[0].0| + 1 + |pairs[0].1|
  {
  }

  /** The first key of a rendered list `t` is scanned up to its `=`. */
  lemma FirstKey(pairs: seq<(string, string)>, t: string)
    requires PlainPairs(pairs) && pairs != [] && t == Render(pairs)
    ensures |pairs[0].0| < |t| && t[|pairs[0].0|] == '=' && t[0..|pairs[0].0|] == pairs[0].0
    ensures forall m :: 0 <= m < |pairs[0].0| ==> t[m] != '=' && t[m] != '\n'
  {
  }

  /** The characters of the first value of a rendered list `t`, which ends at `c`. */
  lemma FirstValueChars(pairs: seq<(string, string)>, t: string, c: nat)
    requires PlainPairs(pairs) && pairs != [] && t == Render(pairs)
    requires c == |pairs[0].0| + 1 + |pairs[0].1|
    ensures c <= |t| && t[|pairs[0].0| + 1..c] == pairs[0].1
    ensures forall m :: |pairs[0].0| + 1 <= m < c ==> t[m] != '=' && t[m] != ','
    ensures |pairs| == 1 ==> c == |t|
  {
  }

  /** After the first pair of a longer rendered list `t`, ending at `c`: a comma, then
      the rest of the list, whose first key holds neither `=` nor a comma and is
      followed by `=` at `n`. */
  lemma NextKeyChars(pairs: seq<(string, string)>, t: string, c: nat, n: nat)
    requires PlainPairs(pairs) && |pairs| > 1 && t == Render(pairs)
    requires c == |pairs[0].0| + 1 + |pairs[0].1| && n == c + 1 + |pairs[1].0|
    ensures n < |t| && t[c] == ',' && t[n] == '=' && t[c + 1..] == Render(pairs[1..])
    ensures forall m :: c < m < n ==> t[m] != '=' && t[m] != ','
  {
  }

  /** The first value of a rendered list `t` ends where its pair does, at `c`: at the
      end of the text, or at the comma before the next pair. */
  lemma FirstValue(pairs: seq<(string, string)>, t: string, c: nat)
    requires PlainPairs(pairs) && pairs != [] && t == Render(pairs)
    requires c == |pairs[0].0| + 1 + |pairs[0].1|
    ensures c <= |t| && ValueMatch(t, |pairs[0].0| + 1) == Some(c) && t[|pairs[0].0| + 1..c] == pairs[0].1
    ensures t[(if c < |t| then c + 1 else c)..] == Render(pairs[1..])
  {
    var q := |pairs[0].0|;
    FirstValueChars(pairs, t, c);
    if |pairs| == 1 {
      NextEqualsAt(t, q + 1, |t|);
    } else {
      var n := c + 1 + |pairs[1].0|;
      NextKeyChars(pairs, t, c, n);
      NextEqualsAt(t, q + 1, n);
      ValueEndAt(t, q + 1, c, n);
    }
  }

  /** The first match in a rendered list `t` is its first pair. */
  lemma FirstMatch(pairs: seq<(string, string)>, t: string)
    requires PlainPairs(pairs) && pairs != [] && t == Render(pairs)
    ensures MatchFrom(t, 0) == Some(PairMatch(0, |pairs[0].0|, |pairs[0].0| + 1 + |pairs[0].1|))
  {
    var c := |pairs[0].0| + 1 + |pairs[0].1|;
    FirstKey(pairs, t);
    FirstValue(pairs, t, c);
    KeyMatchAt(t, 0, |pairs[0].0|, c);
  }

  /** One step of the search: the first match's groups, then the matches after it. */
  lemma FindPairsStep(t: string, m: PairMatch, next: nat)
    requires MatchFrom(t, 0) == Some(m)
    requires next == if m.valueEnd < |t| then m.valueEnd + 1 else m.valueEnd
    ensures next <= |t|
    ensures FindPairs(t) == [(t[m.start..m.equals], t[m.equals + 1..m.valueEnd])] + FindPairs(t[next..])
  {
    assert NextPair(t) == Some(((t[m.start..m.equals], t[m.equals + 1..m.valueEnd]), t[next..]));
  }

  /** Reading a rendered list yields its first pair, then what reading the rest yields. */
  lemma FindPairsFirst(pairs: seq<(string, string)>, t: string)
    requires PlainPairs(pairs) && pairs != [] && t == Render(pairs)
    ensures FindPairs(t) == [pairs[0]] + FindPairs(Render(pairs[1..]))
  {
    var q := |pairs[0].0|;
    var c := q + 1 + |pairs[0].1|;
    FirstKey(pairs, t);
    FirstValue(pairs, t, c);
    FirstMatch(pairs, t);
    FindPairsStep(t, PairMatch(0, q, c), if c < |t| then c + 1 else c);
  }

  lemma PlainTail(pairs: seq<(string, string)>)
    requires PlainPairs(pairs) && pairs != []
    ensures PlainPairs(pairs[1..])
  {
    forall i | 0 <= i < |pairs[1..]|
      ensures PlainKey(pairs[1..][i].0) && PlainValue(pairs[1..][i].1)
    {
      assert pairs[1..][i] == pairs[i + 1];
    }
  }

  /** Headers written in the documented syntax are read back exactly, in order: the
      `BACKSTAGE_HEADERS` pattern inverts `Render` on keys and values without `=` or
      commas (and keys without newlines). */
  lemma {:induction false} FindPairsRender(pairs: seq<(string, string)>)
    requires PlainPairs(pairs)
    ensures FindPairs(Render(pairs)) == pairs
    decreases |pairs|
  {
    if pairs != [] {
      FindPairsFirst(pairs, Render(pairs));
      PlainTail(pairs);
      FindPairsRender(pairs[1..]);
      assert pairs == [pairs[0]] + pairs[1..];
    }
  }

  /** Every key of the list ends up in the map, and nothing else does. */
  lemma {:induction false} PairsToMapKeys(pairs: seq<(string, string)>)
    ensures PairsToMap(pairs).Keys == set i | 0 <= i < |pairs| :: pairs[i].0
    decreases |pairs|
  {
    if pairs != [] {
      var init := pairs[..|pairs| - 1];
      PairsToMapKeys(init);
      var all := set i | 0 <= i < |pairs| :: pairs[i].0;
      var before := set i | 0 <= i < |init| :: init[i].0;
      assert all == before + {pairs[|pairs| - 1].0} by {
        forall x | x in all ensures x in before + {pairs[|pairs| - 1].0} {
          var i :| 0 <= i < |pairs| && x == pairs[i].0;
          if i < |init| {
            assert init[i] == pairs[i];
          }
        }
        forall x | x in before ensures x in all {
          var i :| 0 <= i < |init| && x == init[i].0;
          assert pairs[i] == init[i];
        }
      }
    }
  }

  /** A key listed more than once takes the value of its last occurrence. */
  lemma {:induction false} PairsToMapLastWins(pairs: seq<(string, string)>, i: nat)
    requires i < |pairs|
    requires forall j :: i < j < |pairs| ==> pairs[j].0 != pairs[i].0
    ensures pairs[i].0 in PairsToMap(pairs) && PairsToMap(pairs)[pairs[i].0] == pairs[i].1
    decreases |pairs|
  {
    if i < |pairs| - 1 {
      var init := pairs[..|pairs| - 1];
      assert init[i] == pairs[i];
      PairsToMapLastWins(init, i);
    }
  }

  /** Setting `BACKSTAGE_HEADERS` to a rendered list gives those headers, the last
      value winning for a repeated key, whatever the configuration says. */
  lemma HeadersFromEnvironment(config: ProviderConfig, env: map<string, string>, pairs: seq<(string, string)>)
    requires PlainPairs(pairs) && pairs != [] && Getenv(env, EnvHeaders) == Render(pairs)
    ensures ResolveHeaders(config, env) == PairsToMap(pairs)
    ensures ResolveHeaders(config, env).Keys == set i | 0 <= i < |pairs| :: pairs[i].0
  {
    assert Render(pairs) != "" by {
      assert |Render(pairs)| >= |pairs[0].0| + 1;
    }
    FindPairsRender(pairs);
    PairsToMapKeys(pairs);
  }

  /** Two headers in the environment. */
  lemma HeadersExample(config: ProviderConfig, env: map<string, string>)
    requires Getenv(env, EnvHeaders) == "X-Team=platform,X-Env=prod"
    ensures ResolveHeaders(config, env) == map["X-Team" := "platform", "X-Env" := "prod"]
  {
    var pairs := [("X-Team", "platform"), ("X-Env", "prod")];
    assert Render(pairs[1..]) == "X-Env=prod";
    assert Render(pairs) == "X-Team=platform,X-Env=prod";
    HeadersFromEnvironment(config, env, pairs);
    assert pairs[..1] == [pairs[0]];
  }

  // Properties of `Configure`.

  /** The stages: unknown values stop everything and are the only problems reported;
      then the base URL, namespace and retry checks are reported together and stop
      before the client is built; a bad timeout is reported but the client is still
      built from the value `Atoi` returned; the client reaches data sources and
      resources exactly when it could be created. */
  lemma ConfigureStages(config: ProviderConfig, env: map<string, string>, newClientErr: Option<string>)
    ensures var o := ConfigureResult(config, env, newClientErr);
      && (UnknownErrors(config) != [] ==> o.problems == UnknownErrors(config) && o.call.None?)
      && (config.baseUrl.UnknownValue? ==> UnknownBaseUrl in o.problems)
      && (config.defaultNamespace.UnknownValue? ==> UnknownDefaultNamespace in o.problems)
      && (o.call.Some? <==>
            && !config.baseUrl.UnknownValue? && !config.defaultNamespace.UnknownValue?
            && ValidBaseUrl(ResolveBaseUrl(config, env))
            && MatchesEntityNamePattern(ResolveNamespace(config, env))
            && ResolveRetries(config, env).ok)
      && (o.call.None? ==> o.problems != [] && o.data.None?)
      && (o.call.Some? ==> (InvalidTimeout in o.problems <==> !ResolveTimeout(config, env).ok))
      && (o.data.Some? <==> o.call.Some? && newClientErr.None?)
      && (o.data.Some? ==> o.data == o.call && o.problems == (if ResolveTimeout(config, env).ok then [] else [InvalidTimeout]))
  {
    var o := ConfigureResult(config, env, newClientErr);
    if UnknownErrors(config) == [] && ValidationErrors(Resolve(config, env)) == [] && newClientErr.Some? {
      assert o.problems[|o.problems| - 1] == ClientCreationFailed(newClientErr.value);
    }
  }

  /** A client that is created has a valid base URL, a non-empty namespace of name
      characters (of any length), and the documented client layering: requests pass
      the headers transport, then the retrying transport when retries are positive
      (each attempt bounded by the timeout, the client itself unbounded) or the
      default transport otherwise (the client bounded by the timeout). */
  lemma CreatedClient(config: ProviderConfig, env: map<string, string>, newClientErr: Option<string>)
    requires ConfigureResult(config, env, newClientErr).call.Some?
    ensures var a := ConfigureResult(config, env, newClientErr).call.value;
      var retries := ResolveRetries(config, env).value;
      var timeout := ResolveTimeout(config, env).value;
      && ValidBaseUrl(a.baseUrl) && a.defaultNamespace != "" && MatchesEntityNamePattern(a.defaultNamespace)
      && a.httpClient.transport.Some? && a.httpClient.transport.value.Headers?
      && a.httpClient.transport.value.t.headers == ResolveHeaders(config, env)
      && EffectiveBase(a.httpClient.transport.value.t) == (if retries > 0 then RetryingTransport(retries, timeout) else DefaultTransport)
      && a.httpClient.timeoutSeconds == (if retries > 0 then 0 else timeout)
  {
    ConfigureStages(config, env, newClientErr);
  }

  /** The environment wins for headers, retries and timeout: once the variable is set,
      the attribute's value makes no difference. */
  lemma EnvironmentOverridesNumbersAndHeaders(config: ProviderConfig, env: map<string, string>, newClientErr: Option<string>,
                                              headers: ConfigValue<map<string, string>>, retries: ConfigValue<int>, timeout: ConfigValue<int>)
    ensures Getenv(env, EnvHeaders) != "" ==>
      ConfigureResult(config.(headers := headers), env, newClientErr) == ConfigureResult(config, env, newClientErr)
    ensures Getenv(env, EnvRetries) != "" ==>
      ConfigureResult(config.(retries := retries), env, newClientErr) == ConfigureResult(config, env, newClientErr)
    ensures Getenv(env, EnvTimeoutSeconds) != "" ==>
      ConfigureResult(config.(timeoutSeconds := timeout), env, newClientErr) == ConfigureResult(config, env, newClientErr)
  {
    if Getenv(env, EnvHeaders) != "" {
      assert Resolve(config.(headers := headers), env) == Resolve(config, env);
    }
    if Getenv(env, EnvRetries) != "" {
      assert Resolve(config.(retries := retries), env) == Resolve(config, env);
    }
    if Getenv(env, EnvTimeoutSeconds) != "" {
      assert Resolve(config.(timeoutSeconds := timeout), env) == Resolve(config, env);
    }
  }

  /** The configuration wins for the base URL and the namespace: once the attribute is
      set, the variable makes no difference. */
  lemma ConfigurationOverridesLocation(config: ProviderConfig, env: map<string, string>, newClientErr: Option<string>, url: string, namespace: string)
    ensures config.baseUrl.KnownValue? ==>
      ConfigureResult(config, env[EnvBaseUrl := url], newClientErr) == ConfigureResult(config, env, newClientErr)
    ensures config.defaultNamespace.KnownValue? ==>
      ConfigureResult(config, env[EnvDefaultNamespace := namespace], newClientErr) == ConfigureResult(config, env, newClientErr)
  {
    if config.baseUrl.KnownValue? {
      assert Resolve(config, env[EnvBaseUrl := url]) == Resolve(config, env);
    }
    if config.defaultNamespace.KnownValue? {
      assert Resolve(config, env[EnvDefaultNamespace := namespace]) == Resolve(config, env);
    }
  }

  /** The base-URL pattern is searched, not anchored: a scheme followed by one character
      anywhere in the value is enough, and nothing else is. */
  lemma BaseUrlExamples()
    ensures ValidBaseUrl("https://demo.backstage.io")
    ensures ValidBaseUrl("see http://x")
    ensures !ValidBaseUrl("https://")
    ensures !ValidBaseUrl("demo.backstage.io")
  {
    assert UrlMatchAt("https://demo.backstage.io", 0);
    assert UrlMatchAt("see http://x", 4);
    forall i | 0 <= i < |"https://"| ensures !UrlMatchAt("https://", i) {
      assert "https://"[4] != "http://"[4];
    }
    var host := "demo.backstage.io";
    forall i | 0 <= i < |host| ensures !UrlMatchAt(host, i) {
      assert host[i] != 'h';
      assert !HasAt(host, "http://", i) by {
        if i + 7 <= |host| {
          assert host[i..i + 7][0] == host[i] != "http://"[0];
        }
      }
      assert !HasAt(host, "https://", i) by {
        if i + 8 <= |host| {
          assert host[i..i + 8][0] == host[i] != "https://"[0];
        }
      }
    }
  }

  /** Only the base URL set, nothing in the environment: no problem, namespace
      `default`, no retries, a 15-second timeout and no extra headers. */
  lemma MinimalConfiguration()
    ensures var config := ProviderConfig(KnownValue("https://demo.backstage.io"), NullValue, NullValue, NullValue, NullValue);
      var client := HttpClient(Some(Headers(HeadersTransport(map[], None))), 15);
      ConfigureResult(config, map[], None) == ConfigureOutcome([], Some(ClientArgs("https://demo.backstage.io", "default", client)), Some(ClientArgs("https://demo.backstage.io", "default", client)))
  {
    BaseUrlExamples();
  }

  /** A timeout that does not parse is reported, and the client is still created, with
      the value `Atoi` gave back (0): no overall timeout. */
  lemma BadTimeoutStillCreates(config: ProviderConfig, env: map<string, string>)
    requires config == ProviderConfig(KnownValue("https://demo.backstage.io"), NullValue, NullValue, NullValue, NullValue)
    requires env == map[EnvTimeoutSeconds := "soon"]
    ensures ConfigureResult(config, env, None).problems == [InvalidTimeout]
    ensures ConfigureResult(config, env, None).data == Some(ClientArgs("https://demo.backstage.io", "default", HttpClient(Some(Headers(HeadersTransport(map[], None))), 0)))
  {
    BaseUrlExamples();
    assert !AllDigits("soon") by {
      assert !IsDigit("soon"[0]);
    }
  }


}
