/** `HeadersTransport`: an HTTP round tripper that adds a fixed set of headers to a copy
    of every outgoing request and hands the copy to an underlying transport (the
    default one when none is set). */
module Transport {
  import opened Framework

  /** The round trippers the provider assembles. Anything but the headers transport is
      opaque here: what it does with a request is not modelled. */
  datatype RoundTripper =
    | DefaultTransport
    | RetryingTransport(retryMax: int, attemptTimeoutSeconds: int)
    | Headers(t: HeadersTransport)

  /** `HeadersTransport{Headers, BaseTransport}`; a nil base is `None`. */
  datatype HeadersTransport = HeadersTransport(headers: map<string, string>, baseTransport: Option<RoundTripper>)

  /** The `http.Client` fields the provider sets: the transport (nil is `None`) and the
      overall timeout in seconds (0 is none). */
  datatype HttpClient = HttpClient(transport: Option<RoundTripper>, timeoutSeconds: int)

  /** `transport()`: the base transport, or `http.DefaultTransport` when it is nil. */
  function EffectiveBase(t: HeadersTransport): (r: RoundTripper)
    ensures t.baseTransport.Some? ==> r == t.baseTransport.value
    ensures t.baseTransport.None? ==> r == DefaultTransport
  {
    if t.baseTransport.Some? then t.baseTransport.value else DefaultTransport
  }

  /** `Client()`: a client whose transport is this one, with no timeout of its own. */
  function Client(t: HeadersTransport): (c: HttpClient)
    ensures c.transport == Some(Headers(t)) && c.timeoutSeconds == 0
  {
    HttpClient(Some(Headers(t)), 0)
  }

  // Header keys as net/http stores them.

  /** A byte allowed in a header field name (an RFC 7230 token character). */
  predicate IsTokenChar(c: char) {
    ('a' <= c <= 'z') || ('A' <= c <= 'Z') || ('0' <= c <= '9') ||
    c in {'!', '#', '$', '%', '&', '\'', '*', '+', '-', '.', '^', '_', '`', '|', '~'}
  }

  function ToUpper(c: char): char {
    if 'a' <= c <= 'z' then (c as int - 32) as char else c
  }

  function ToLower(c: char): char {
    if 'A' <= c <= 'Z' then (c as int + 32) as char else c
  }

  /** Character `i` of the canonical form: upper case at the start and after a hyphen,
      lower case elsewhere. */
  function CanonicalChar(s: string, i: nat): char
    requires i < |s|
  {
    if i == 0 || s[i - 1] == '-' then ToUpper(s[i]) else ToLower(s[i])
  }

  /** `textproto.CanonicalMIMEHeaderKey`: a key made only of token characters is
      rewritten so that each hyphen-separated word is capitalised; any other key is
      returned unchanged. */
  function CanonicalKey(s: string): (r: string)
    ensures |r| == |s|
  {
    if forall i :: 0 <= i < |s| ==> IsTokenChar(s[i]) then seq(|s|, i requires 0 <= i < |s| => CanonicalChar(s, i))
    else s
  }

  /** Canonicalising a canonical key changes nothing. */
  lemma CanonicalKeyIdempotent(s: string)
    ensures CanonicalKey(CanonicalKey(s)) == CanonicalKey(s)
  {
    var r := CanonicalKey(s);
    if forall i :: 0 <= i < |s| ==> IsTokenChar(s[i]) {
      forall i | 0 <= i < |s|
        ensures IsTokenChar(r[i]) && (r[i] == '-' <==> s[i] == '-')
      {
        assert r[i] == CanonicalChar(s, i);
      }
      forall i | 0 <= i < |s|
        ensures CanonicalChar(r, i) == r[i]
      {
        assert r[i] == CanonicalChar(s, i);
      }
    }
  }

  /** The header names a client test configures end up capitalised per word. */
  lemma CanonicalExample()
    ensures CanonicalKey("test-header-1") == "Test-Header-1"
  {
  }

  // Requests and their headers.

  /** `http.Header`: a map object the request points to, so that two requests can share it. */
  class Header {
    var values: map<string, seq<string>>

    constructor (values: map<string, seq<string>>)
      ensures this.values == values
    {
      this.values := values;
    }

    /** `Header.Add(key, value)`: appends `value` under the canonical form of `key`. */
    method Add(key: string, value: string)
      modifies this
      ensures values == Added(old(values), CanonicalKey(key), value)
    {
      var k := CanonicalKey(key);
      var existing := if k in values then values[k] else [];
      values := values[k := existing + [value]];
    }
  }

  /** The values under `key`, none when absent. */
  function ValuesOf(h: map<string, seq<string>>, key: string): seq<string> {
    if key in h then h[key] else []
  }

  /** `h` after appending `value` under `key`. */
  function Added(h: map<string, seq<string>>, key: string, value: string): map<string, seq<string>> {
    h[key := ValuesOf(h, key) + [value]]
  }

  /** The `http.Request` fields the transport touches; `header` is a pointer. */
  class Request {
    var verb: string
    var url: string
    var body: string
    var header: Header

    constructor (verb: string, url: string, body: string, header: Header)
      ensures this.verb == verb && this.url == url && this.body == body && this.header == header
    {
      this.verb := verb;
      this.url := url;
      this.body := body;
      this.header := header;
    }
  }

  /** `cloneRequest`: a new request with the same fields and a new header map holding
      copies of the original's value lists. The original is not modified (no `modifies`). */
  method CloneRequest(r: Request) returns (r2: Request)
    ensures fresh(r2) && fresh(r2.header)
    ensures r2.verb == r.verb && r2.url == r.url && r2.body == r.body
    ensures r2.header.values == r.header.values
  {
    var copied: map<string, seq<string>> := map[];
    var pending := r.header.values.Keys;
    while pending != {}
      invariant pending <= r.header.values.Keys
      invariant copied.Keys == r.header.values.Keys - pending
      invariant forall k :: k in copied ==> copied[k] == r.header.values[k]
      decreases pending
    {
      var k :| k in pending;
      copied := copied[k := [] + r.header.values[k]];
      pending := pending - {k};
    }
    var h := new Header(copied);
    r2 := new Request(r.verb, r.url, r.body, h);
  }

  /** `order` is an order in which `range` may visit the keys of `headers`: each key
      exactly once. */
  predicate IsIterationOrder(order: seq<string>, headers: map<string, string>) {
    && (forall i :: 0 <= i < |order| ==> order[i] in headers)
    && (forall k :: k in headers ==> k in order)
    && (forall i, j :: 0 <= i < j < |order| ==> order[i] != order[j])
  }

  /** The header map after the loop has added the headers named by `order`, in that order. */
  function AddAll(h: map<string, seq<string>>, headers: map<string, string>, order: seq<string>): map<string, seq<string>>
    requires forall i :: 0 <= i < |order| ==> order[i] in headers
    decreases |order|
  {
    if order == [] then h
    else
      var last := order[|order| - 1];
      Added(AddAll(h, headers, order[..|order| - 1]), CanonicalKey(last), headers[last])
  }

  /** `RoundTrip`: the request sent on is a fresh copy of `req` carrying every
      configured header, and it goes to `transport()`. The caller's request and its
      header map are left untouched (the method modifies nothing that existed before).
      Range's iteration order is the parameter `order`; the base transport's own round
      trip is not modelled. */
  method RoundTrip(t: HeadersTransport, req: Request, order: seq<string>) returns (sent: Request, via: RoundTripper)
    requires IsIterationOrder(order, t.headers)
    ensures fresh(sent) && fresh(sent.header)
    ensures sent.verb == req.verb && sent.url == req.url && sent.body == req.body
    ensures sent.header.values == AddAll(req.header.values, t.headers, order)
    ensures forall k :: k !in CanonicalKeys(order) ==>
      (k in sent.header.values <==> k in req.header.values) && ValuesOf(sent.header.values, k) == ValuesOf(req.header.values, k)
    ensures forall k :: k in t.headers && Unshared(t.headers, k) ==>
      ValuesOf(sent.header.values, CanonicalKey(k)) == ValuesOf(req.header.values, CanonicalKey(k)) + [t.headers[k]]
    ensures via == EffectiveBase(t)
  {
    sent := CloneRequest(req);
    AddHeaders(sent.header, t.headers, order);
    via := EffectiveBase(t);
    AddAllKeepsExisting(req.header.values, t.headers, order);
    forall k | k in t.headers && Unshared(t.headers, k)
      ensures ValuesOf(sent.header.values, CanonicalKey(k)) == ValuesOf(req.header.values, CanonicalKey(k)) + [t.headers[k]]
    {
      var j :| 0 <= j < |order| && order[j] == k;
      AddAllAppendsValue(req.header.values, t.headers, order, j);
    }
  }

  /** No other configured key has the canonical form of `k`. */
  predicate Unshared(headers: map<string, string>, k: string) {
    forall k' :: k' in headers && k' != k ==> CanonicalKey(k') != CanonicalKey(k)
  }

  /** The loop `for k, v := range t.Headers { req.Header.Add(k, v) }`, visiting the keys
      in `order`. */
  method AddHeaders(h: Header, headers: map<string, string>, order: seq<string>)
    requires forall i :: 0 <= i < |order| ==> order[i] in headers
    modifies h
    ensures h.values == AddAll(old(h.values), headers, order)
  {
    ghost var start := h.values;
    for i := 0 to |order|
      invariant h.values == AddAll(start, headers, order[..i])
    {
      assert order[..i + 1][..i] == order[..i];
      h.Add(order[i], headers[order[i]]);
    }
    assert order[..|order|] == order;
  }

  // Properties of the header loop.

  /** The canonical forms of the keys in `order`. */
  function CanonicalKeys(order: seq<string>): set<string> {
    set i | 0 <= i < |order| :: CanonicalKey(order[i])
  }

  /** The canonical forms of a list's keys are those of all but its last key, and the
      last key's. */
  lemma CanonicalKeysSnoc(order: seq<string>)
    requires order != []
    ensures CanonicalKeys(order) == CanonicalKeys(order[..|order| - 1]) + {CanonicalKey(order[|order| - 1])}
  {
    var init := order[..|order| - 1];
    forall x | x in CanonicalKeys(order) ensures x in CanonicalKeys(init) + {CanonicalKey(order[|order| - 1])} {
      var i :| 0 <= i < |order| && x == CanonicalKey(order[i]);
      if i < |init| {
        assert init[i] == order[i];
      }
    }
    forall x | x in CanonicalKeys(init) ensures x in CanonicalKeys(order) {
      var i :| 0 <= i < |init| && x == CanonicalKey(init[i]);
      assert order[i] == init[i];
    }
  }

  /** Only canonical forms of configured keys are added to the map. */
  lemma {:induction false} AddAllKeys(h: map<string, seq<string>>, headers: map<string, string>, order: seq<string>)
    requires forall i :: 0 <= i < |order| ==> order[i] in headers
    ensures AddAll(h, headers, order).Keys == h.Keys + CanonicalKeys(order)
    decreases |order|
  {
    if order != [] {
      AddAllKeys(h, headers, order[..|order| - 1]);
      CanonicalKeysSnoc(order);
    }
  }

  /** Adding never loses a value: every list the request had is a prefix of the list
      under the same key afterwards, and no key disappears. A key that is not the
      canonical form of a configured key is untouched: present afterwards exactly when
      it was before, with the same values. */
  lemma {:induction false} AddAllKeepsExisting(h: map<string, seq<string>>, headers: map<string, string>, order: seq<string>)
    requires forall i :: 0 <= i < |order| ==> order[i] in headers
    ensures forall k :: k in h ==> k in AddAll(h, headers, order) && h[k] <= AddAll(h, headers, order)[k]
    ensures forall k :: k !in CanonicalKeys(order) ==>
      (k in AddAll(h, headers, order) <==> k in h) && ValuesOf(AddAll(h, headers, order), k) == ValuesOf(h, k)
    decreases |order|
  {
    if order != [] {
      AddAllKeepsExisting(h, headers, order[..|order| - 1]);
      CanonicalKeysSnoc(order);
    }
  }

  /** `Add` appends rather than replaces: when no other visited key shares the
      canonical form of `order[j]`, the values under that form afterwards are the
      request's own, followed by the configured value. */
  lemma {:induction false} AddAllAppendsValue(h: map<string, seq<string>>, headers: map<string, string>, order: seq<string>, j: nat)
    requires forall i :: 0 <= i < |order| ==> order[i] in headers
    requires j < |order|
    requires forall i :: 0 <= i < |order| && i != j ==> CanonicalKey(order[i]) != CanonicalKey(order[j])
    ensures ValuesOf(AddAll(h, headers, order), CanonicalKey(order[j])) == ValuesOf(h, CanonicalKey(order[j])) + [headers[order[j]]]
    decreases |order|
  {
    var init := order[..|order| - 1];
    var c := CanonicalKey(order[j]);
    if j == |init| {
      forall i | 0 <= i < |init| ensures CanonicalKey(init[i]) != c {
        assert init[i] == order[i];
      }
      AddAllKeepsExisting(h, headers, init);
    } else {
      assert init[j] == order[j];
      AddAllAppendsValue(h, headers, init, j);
    }
  }

  /** Each configured header visited is present afterwards: its value is in the list
      under its canonical key. */
  lemma {:induction false} AddAllContains(h: map<string, seq<string>>, headers: map<string, string>, order: seq<string>, j: nat)
    requires forall i :: 0 <= i < |order| ==> order[i] in headers
    requires j < |order|
    ensures CanonicalKey(order[j]) in AddAll(h, headers, order)
    ensures headers[order[j]] in AddAll(h, headers, order)[CanonicalKey(order[j])]
    decreases |order|
  {
    var init := order[..|order| - 1];
    if j < |init| {
      AddAllContains(h, headers, init, j);
      var before := AddAll(h, headers, init);
      var k := CanonicalKey(order[j]);
      assert before[k] <= ValuesOf(before, k) + [headers[order[|order| - 1]]];
    }
  }

  /** Every configured header reaches the request the base transport receives, under
      its canonical name, whatever the iteration order and whatever the request
      already carried. */
  lemma AllConfiguredPresent(h: map<string, seq<string>>, headers: map<string, string>, order: seq<string>)
    requires IsIterationOrder(order, headers)
    ensures forall k :: k in headers ==>
      CanonicalKey(k) in AddAll(h, headers, order) && headers[k] in AddAll(h, headers, order)[CanonicalKey(k)]
  {
    forall k | k in headers
      ensures CanonicalKey(k) in AddAll(h, headers, order) && headers[k] in AddAll(h, headers, order)[CanonicalKey(k)]
    {
      var j :| 0 <= j < |order| && order[j] == k;
      AddAllContains(h, headers, order, j);
    }
  }

  /** With no configured headers the request is passed on with its headers as they were. */
  lemma NoHeadersPassThrough(h: map<string, seq<string>>, order: seq<string>)
    requires IsIterationOrder(order, map[])
    ensures AddAll(h, map[], order) == h
  {
  }
}
