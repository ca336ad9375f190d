/** Values every data source, the location resource and the provider share:
    terraform's nullable string, diagnostics, the entity-name pattern, and the
    response object a `Read`/`Create`/`Delete` fills in. */
module Framework {

  datatype Option<+T> = None | Some(value: T)

  /** A terraform `types.String` once the configuration is known: null or a value. */
  datatype Str = Null | Value(s: string)

  /** `ValueString()`: the empty string for null. */
  function ValueString(x: Str): string {
    if x.Value? then x.s else ""
  }

  /** `if x.IsNull() { x = types.StringValue(d) }`: a null becomes `d`, a set value stays. */
  function OrDefault(x: Str, d: string): (r: Str)
    ensures r.Value?
    ensures x.Value? ==> r == x
    ensures ValueString(r) == (if x.Null? then d else x.s)
  {
    if x.Null? then Value(d) else x
  }

  /** Applying a default a second time changes nothing. */
  lemma OrDefaultIdempotent(x: Str, d: string, d': string)
    ensures OrDefault(OrDefault(x, d), d') == OrDefault(x, d)
  {
  }

  /** `backstage.DefaultNamespaceName` of the catalog client library. */
  const DefaultNamespaceName: string := "default"

  datatype Severity = Error | Warning

  /** One entry of `resp.Diagnostics`; `attribute` is the path of an attribute error. */
  datatype Diagnostic = Diagnostic(severity: Severity, summary: string, detail: string, attribute: Option<string>)

  /** `Diagnostics.HasError()`. */
  predicate HasError(ds: seq<Diagnostic>) {
    exists i :: 0 <= i < |ds| && ds[i].severity == Error
  }

  /** No diagnostic in `ds` is an error. */
  predicate OnlyWarnings(ds: seq<Diagnostic>) {
    forall i :: 0 <= i < |ds| ==> ds[i].severity == Warning
  }

  /** A character of `[a-zA-Z0-9\-_\.]`. */
  predicate IsNameChar(c: char) {
    ('a' <= c <= 'z') || ('A' <= c <= 'Z') || ('0' <= c <= '9') || c == '-' || c == '_' || c == '.'
  }

  /** `patternEntityName`, `^[a-zA-Z0-9\-_\.]*$`: every character is a name character
      (the empty string matches too). */
  predicate MatchesEntityNamePattern(s: string) {
    forall i :: 0 <= i < |s| ==> IsNameChar(s[i])
  }

  /** A response a data source or resource operation fills in: the diagnostics it
      appends and the state it sets (`resp.State.Set`). */
  class Response<M> {
    var diagnostics: seq<Diagnostic>
    var state: Option<M>

    constructor (prior: Option<M>)
      ensures diagnostics == [] && state == prior
    {
      diagnostics := [];
      state := prior;
    }

    /** `resp.Diagnostics.AddError(summary, detail)`. */
    method AddError(summary: string, detail: string)
      modifies this
      ensures diagnostics == old(diagnostics) + [Diagnostic(Error, summary, detail, None)]
      ensures state == old(state)
    {
      diagnostics := diagnostics + [Diagnostic(Error, summary, detail, None)];
    }

    /** `resp.Diagnostics.AddWarning(summary, detail)`. */
    method AddWarning(summary: string, detail: string)
      modifies this
      ensures diagnostics == old(diagnostics) + [Diagnostic(Warning, summary, detail, None)]
      ensures state == old(state)
    {
      diagnostics := diagnostics + [Diagnostic(Warning, summary, detail, None)];
    }

    /** `resp.State.Set(ctx, m)`. */
    method SetState(m: M)
      modifies this
      ensures state == Some(m)
      ensures diagnostics == old(diagnostics)
    {
      state := Some(m);
    }
  }
}
