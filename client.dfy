/** `KapsoClientRuby::Client`: construction, header and URL building, query flattening, the
    response dispatch and the transport retry loop. The HTTP transport itself is a parameter:
    the outcome of each attempt. */
module KapsoClient {
  import opened Wrappers
  import opened Text
  import opened Values
  import opened Errors
  import opened Types
  import KapsoClientRuby

  const DefaultBaseUrl := "https://graph.facebook.com"
  const DefaultGraphVersion := "v24.0"

  /** A constructed client. Its fields are set once, in `initialize`. `retry_delay` is in
      milliseconds. */
  datatype Client = Client(
    accessToken: Option<string>, kapsoApiKey: Option<string>, baseUrl: string, graphVersion: string,
    kapsoProxy: bool, debug: bool, timeout: int, openTimeout: int, maxRetries: int, retryDelayMs: int)

  /** The keyword arguments of `Client.new`; None stands for an omitted (nil) argument. */
  datatype ClientArgs = ClientArgs(
    accessToken: Option<string>, kapsoApiKey: Option<string>, baseUrl: Option<string>,
    graphVersion: Option<string>, debug: Option<bool>, timeout: Option<int>, openTimeout: Option<int>,
    maxRetries: Option<int>, retryDelayMs: Option<int>)

  // ---------------------------------------------------------------- construction

  /** Some line of `url` starts with `http://` or `https://` (`match?(%r{^https?://})`). */
  predicate HasLineScheme(url: string) {
    exists i :: 0 <= i <= |url| && (i == 0 || url[i - 1] == '\n') &&
      (StartsWith(url[i..], "http://") || StartsWith(url[i..], "https://"))
  }

  /** `normalize_base_url`: `https://` in front unless a scheme is already there, then one
      trailing `/` removed. */
  function NormalizeBaseUrl(url: string): (r: string)
    ensures StartsWith(url, "http://") || StartsWith(url, "https://") ==> r == Chomp(url, "/")
    ensures HasLineScheme(url) ==> r == Chomp(url, "/")
    ensures !HasLineScheme(url) ==> r == Chomp("https://" + url, "/")
  {
    assert StartsWith(url, "http://") || StartsWith(url, "https://") ==> HasLineScheme(url) by {
      assert url[0..] == url;
    }
    if HasLineScheme(url) then Chomp(url, "/") else Chomp("https://" + url, "/")
  }

  /** On a single line the scheme test is a plain prefix test. */
  lemma SingleLineScheme(url: string)
    requires forall i :: 0 <= i < |url| ==> url[i] != '\n'
    ensures HasLineScheme(url) <==> StartsWith(url, "http://") || StartsWith(url, "https://")
  {
    if HasLineScheme(url) {
      var i :| 0 <= i <= |url| && (i == 0 || url[i - 1] == '\n') &&
        (StartsWith(url[i..], "http://") || StartsWith(url[i..], "https://"));
      assert i == 0;
      assert url[0..] == url;
    }
  }

  /** `^` matches after any newline: a scheme at the start of a later line keeps the text as it
      is, whatever the first line holds. */
  lemma LaterLineScheme(first: string, rest: string)
    requires StartsWith(rest, "http://") || StartsWith(rest, "https://")
    ensures NormalizeBaseUrl(first + "\n" + rest) == Chomp(first + "\n" + rest, "/")
  {
    var url := first + "\n" + rest;
    var i := |first| + 1;
    assert url[i - 1] == '\n' && url[i..] == rest;
  }

  /** A bare host gets the https scheme and loses its trailing slash. */
  lemma BaseUrlExamples()
    ensures NormalizeBaseUrl("graph.facebook.com/") == "https://graph.facebook.com"
  {
    SingleLineScheme("graph.facebook.com/");
    assert !StartsWith("graph.facebook.com/", "http://") by { assert "graph.facebook.com/"[0] == 'g'; }
    assert !StartsWith("graph.facebook.com/", "https://") by { assert "graph.facebook.com/"[0] == 'g'; }
    assert "https://" + "graph.facebook.com/" == "https://graph.facebook.com/";
  }

  /** A URL with a scheme is only trimmed; the empty string becomes `https:/`, since the one
      slash removed is the scheme's. */
  lemma SchemeUrlExamples()
    ensures NormalizeBaseUrl("http://localhost:3000/") == "http://localhost:3000"
    ensures NormalizeBaseUrl("") == "https:/"
  {
    assert StartsWith("http://localhost:3000/", "http://");
    assert !HasLineScheme("") by { SingleLineScheme(""); }
    assert "https://" + "" == "https://";
  }

  /** `detect_kapso_proxy`: the URL contains `kapso.ai`. */
  predicate DetectProxy(url: string) {
    Contains(url, "kapso.ai")
  }

  /** `Client.new`. One of the two credentials is required; the global configuration supplies
      only debug, timeouts and retry settings, never credentials, base URL or version. */
  function NewClient(args: ClientArgs, config: KapsoClientRuby.Settings): (r: Result<Client, Failure>)
    ensures r.Failure? <==> args.accessToken.None? && args.kapsoApiKey.None?
    ensures r.Failure? ==> r.error == ConfigurationError("Must provide either access_token or kapso_api_key")
    ensures r.Success? ==>
              r.value.accessToken == args.accessToken && r.value.kapsoApiKey == args.kapsoApiKey &&
              r.value.baseUrl == NormalizeBaseUrl(args.baseUrl.GetOr(DefaultBaseUrl)) &&
              r.value.kapsoProxy == DetectProxy(r.value.baseUrl) &&
              r.value.graphVersion == args.graphVersion.GetOr(DefaultGraphVersion)
    ensures r.Success? ==>
              r.value.debug == args.debug.GetOr(config.debug) && r.value.timeout == args.timeout.GetOr(config.timeout) &&
              r.value.openTimeout == args.openTimeout.GetOr(config.openTimeout) &&
              r.value.maxRetries == args.maxRetries.GetOr(config.maxRetries) &&
              r.value.retryDelayMs == args.retryDelayMs.GetOr(config.retryDelayMs)
  {
    if args.accessToken.None? && args.kapsoApiKey.None? then
      Failure(ConfigurationError("Must provide either access_token or kapso_api_key"))
    else
      var base := NormalizeBaseUrl(args.baseUrl.GetOr(DefaultBaseUrl));
      Success(Client(args.accessToken, args.kapsoApiKey, base, args.graphVersion.GetOr(DefaultGraphVersion),
                     DetectProxy(base), args.debug.GetOr(config.debug), args.timeout.GetOr(config.timeout),
                     args.openTimeout.GetOr(config.openTimeout), args.maxRetries.GetOr(config.maxRetries),
                     args.retryDelayMs.GetOr(config.retryDelayMs)))
  }

  /** Whether construction succeeds, and the credentials, URL, version and proxy mode of the
      client, do not depend on the global configuration at all. */
  lemma ConfigurationNeverSuppliesCredentials(args: ClientArgs, s1: KapsoClientRuby.Settings, s2: KapsoClientRuby.Settings)
    ensures NewClient(args, s1).Success? == NewClient(args, s2).Success?
    ensures NewClient(args, s1).Success? ==>
              var c1 := NewClient(args, s1).value;
              var c2 := NewClient(args, s2).value;
              c1.accessToken == c2.accessToken && c1.kapsoApiKey == c2.kapsoApiKey &&
              c1.baseUrl == c2.baseUrl && c1.graphVersion == c2.graphVersion && c1.kapsoProxy == c2.kapsoProxy
  {
  }

  /** The configuration's `kapso_proxy?` and the client's proxy mode disagree both ways: the
      first wants a key and the word `kapso`, the second only `kapso.ai` in the URL. */
  lemma ProxyTestsDisagree()
    ensures var s := KapsoClientRuby.Defaults.(kapsoApiKey := Some("k"), baseUrl := Some("https://kapso.example"));
            KapsoClientRuby.ProxyConfigured(s) && !DetectProxy("https://kapso.example")
    ensures var s := KapsoClientRuby.Defaults.(baseUrl := Some("https://api.kapso.ai"));
            !KapsoClientRuby.ProxyConfigured(s) && DetectProxy("https://api.kapso.ai")
  {
    assert "https://kapso.example"[8..13] == "kapso";
    assert OccursAt("https://kapso.example", "kapso", 8);
    assert "https://api.kapso.ai"[12..20] == "kapso.ai";
    assert OccursAt("https://api.kapso.ai", "kapso.ai", 12);
    assert "kapso.ai"[7] == 'i';
    NotContainsChar("https://kapso.example", "kapso.ai", 7);
  }

  /** `assert_kapso_proxy(feature)`, which every proxy-only operation runs first. */
  function RequireProxy(c: Client, feature: string): (r: Result<(), Failure>)
    ensures r.Success? <==> c.kapsoProxy
    ensures r.Failure? ==> r.error == ProxyRequired(feature)
  {
    if c.kapsoProxy then Success(()) else Failure(ProxyRequired(feature))
  }

  /** A string with a non-space character. */
  predicate Filled(v: Value) { v.VStr? && !IsBlankText(v.s) }

  /** `nil`, or a string of spaces only. */
  predicate Blank(v: Value) { v.VNil? || (v.VStr? && IsBlankText(v.s)) }

  /** The resources' `raise ArgumentError, message if x.nil? || x.strip.empty?`: a string that is
      not blank passes, nil and blank strings are refused with `message`, and any other value
      fails in `strip`. */
  function RequireText(v: Value, message: string): (r: Result<(), Failure>)
    ensures r.Success? <==> Filled(v)
    ensures Blank(v) ==> r == Failure(ArgumentError(message))
    ensures !Blank(v) && !Filled(v) ==> r.Failure? && r.error.TypeFault?
  {
    match NilOrBlank(v)
    case None => Failure(TypeFault("undefined method `strip'"))
    case Some(blank) => if blank then Failure(ArgumentError(message)) else Success(())
  }

  /** A resource's `@client.request(verb, path, query:, body: payload.to_json, response_type: :json)`
      whose payload is a hash holding exactly the entries of `m`. */
  ghost predicate JsonRequest(call: ApiCall, verb: Verb, path: string, query: Option<Fields>, m: map<Key, Value>) {
    call.verb == verb && call.path == path && call.query == query && call.headers == [] && call.responseType == AsJson &&
    call.body.JsonBody? && call.body.payload.VHash? && Holds(call.body.payload.fields, m)
  }

  /** A query built as `{...}.compact` from `all`: its entries are those of `all` whose value is
      not nil. */
  ghost predicate CompactOf(query: Option<Fields>, all: Fields) {
    query.Some? && forall e :: e in query.value <==> e in all && !e.1.VNil?
  }

  // ---------------------------------------------------------------- headers

  const AuthorizationHeader := KStr("Authorization")
  const ApiKeyHeader := KStr("X-API-Key")
  const ContentTypeHeader := KStr("Content-Type")

  /** The headers `build_headers` gives: the caller's non-nil headers win; otherwise the bearer
      token and the API key appear iff they are set, and the JSON content type unless the caller
      names a Content-Type (even a nil one); no other header appears. */
  ghost predicate BuiltHeaders(c: Client, custom: Fields, headers: Fields) {
    UniqueKeys(headers) &&
    (forall k :: HasKey(Compact(custom), k) ==> Lookup(headers, k) == Latest(Compact(custom), k)) &&
    (!HasKey(Compact(custom), AuthorizationHeader) ==>
       Lookup(headers, AuthorizationHeader) ==
         (if c.accessToken.Some? then Some(VStr("Bearer " + c.accessToken.value)) else None)) &&
    (!HasKey(Compact(custom), ApiKeyHeader) ==>
       Lookup(headers, ApiKeyHeader) == (if c.kapsoApiKey.Some? then Some(VStr(c.kapsoApiKey.value)) else None)) &&
    (!HasKey(custom, ContentTypeHeader) ==> Lookup(headers, ContentTypeHeader) == Some(VStr("application/json"))) &&
    (HasKey(custom, ContentTypeHeader) ==> Lookup(headers, ContentTypeHeader) == Latest(Compact(custom), ContentTypeHeader)) &&
    (forall k :: HasKey(headers, k) ==>
       k == AuthorizationHeader || k == ApiKeyHeader || k == ContentTypeHeader || HasKey(custom, k))
  }

  /** `build_headers`: credentials first, then the JSON content type unless the caller names a
      Content-Type, then the caller's non-nil headers over the top. */
  method BuildHeaders(c: Client, custom: Fields) returns (headers: Fields)
    ensures BuiltHeaders(c, custom, headers)
  {
    headers := [];
    ghost var auth, key, ct: Option<Value> := None, None, None;
    if c.accessToken.Some? {
      PutHeader(headers, AuthorizationHeader, VStr("Bearer " + c.accessToken.value), auth, key, ct);
      headers, auth := Put(headers, AuthorizationHeader, VStr("Bearer " + c.accessToken.value)), Some(VStr("Bearer " + c.accessToken.value));
    }
    if c.kapsoApiKey.Some? {
      PutHeader(headers, ApiKeyHeader, VStr(c.kapsoApiKey.value), auth, key, ct);
      headers, key := Put(headers, ApiKeyHeader, VStr(c.kapsoApiKey.value)), Some(VStr(c.kapsoApiKey.value));
    }
    if !HasKey(custom, ContentTypeHeader) {
      PutHeader(headers, ContentTypeHeader, VStr("application/json"), auth, key, ct);
      headers, ct := Put(headers, ContentTypeHeader, VStr("application/json")), Some(VStr("application/json"));
    }
    assert HeadersHold(headers, auth, key, ct);
    MergeOverOwn(headers, custom);
    headers := Merge(headers, Compact(custom));
  }

  /** The client's own headers before the caller's are merged in: only the three it sets, with
      the given values (None for absent). */
  ghost predicate HeadersHold(h: Fields, auth: Option<Value>, key: Option<Value>, ct: Option<Value>) {
    UniqueKeys(h) && Lookup(h, AuthorizationHeader) == auth && Lookup(h, ApiKeyHeader) == key &&
    Lookup(h, ContentTypeHeader) == ct &&
    (forall k :: HasKey(h, k) ==> k == AuthorizationHeader || k == ApiKeyHeader || k == ContentTypeHeader)
  }

  lemma PutHeader(h: Fields, k: Key, v: Value, auth: Option<Value>, key: Option<Value>, ct: Option<Value>)
    requires k == AuthorizationHeader || k == ApiKeyHeader || k == ContentTypeHeader
    requires h == [] ==> auth.None? && key.None? && ct.None?
    requires h != [] ==> HeadersHold(h, auth, key, ct)
    ensures HeadersHold(Put(h, k, v), if k == AuthorizationHeader then Some(v) else auth,
                  if k == ApiKeyHeader then Some(v) else key, if k == ContentTypeHeader then Some(v) else ct)
  {
    PutKeys(h, k, v);
    PutLookup(h, k, v);
    if h == [] {
      assert !HasKey(h, AuthorizationHeader) && !HasKey(h, ApiKeyHeader) && !HasKey(h, ContentTypeHeader);
    }
  }

  /** Merging the compacted caller headers over the client's own ones. */
  lemma MergeOverOwn(own: Fields, custom: Fields)
    requires UniqueKeys(own)
    ensures UniqueKeys(Merge(own, Compact(custom)))
    ensures forall k :: Lookup(Merge(own, Compact(custom)), k) ==
                          if HasKey(Compact(custom), k) then Latest(Compact(custom), k) else Lookup(own, k)
    ensures forall k :: HasKey(Merge(own, Compact(custom)), k) ==> HasKey(own, k) || HasKey(custom, k)
  {
    forall k ensures Lookup(Merge(own, Compact(custom)), k) ==
                      if HasKey(Compact(custom), k) then Latest(Compact(custom), k) else Lookup(own, k) {
      MergeLookup(own, Compact(custom), k);
    }
    forall k | HasKey(Compact(custom), k) ensures HasKey(custom, k) {
      var i :| 0 <= i < |Compact(custom)| && Compact(custom)[i].0 == k;
      assert Compact(custom)[i] in custom;
    }
  }

  // ---------------------------------------------------------------- URL and query

  /** A request URL: the address, and the separator and pairs `URI.encode_www_form` would
      append. */
  datatype RequestUrl = RequestUrl(address: string, query: Option<(char, seq<(string, Value)>)>)

  /** `"#{prefix}[#{key}]"`, or the key itself at the top level. */
  function ParamKey(prefix: Option<string>, k: Key): string {
    if prefix.Some? then prefix.value + "[" + k.name + "]" else k.name
  }

  function Concat(parts: seq<seq<(string, Value)>>): (r: seq<(string, Value)>)
    ensures parts == [] ==> r == []
  {
    if parts == [] then [] else Concat(parts[..|parts| - 1]) + parts[|parts| - 1]
  }

  /** The pairs `flatten_query` produces for a hash: each entry's pairs in key order. */
  function Flatten(v: Value, prefix: Option<string>): seq<(string, Value)>
    decreases v, 0
  {
    match v
    case VHash(f) => Concat(seq(|f|, i requires 0 <= i < |f| => EntryPairs(ParamKey(prefix, f[i].0), f[i].1)))
    case _ => []
  }

  /** The pairs of one entry: a hash is flattened under the entry's key, an array gives one pair
      per element, nil gives nothing and any other value one pair. */
  function EntryPairs(key: string, w: Value): seq<(string, Value)>
    decreases w, 1
  {
    match w
    case VHash(_) => Flatten(w, Some(key))
    case VArr(items) => seq(|items|, j requires 0 <= j < |items| => (key, items[j]))
    case VNil => []
    case _ => [(key, w)]
  }

  /** The pairs of the first `n` entries of `f`, entry by entry. */
  ghost function Parts(prefix: Option<string>, f: Fields, n: nat): seq<seq<(string, Value)>>
    requires n <= |f|
  {
    seq(n, k requires 0 <= k < n => EntryPairs(ParamKey(prefix, f[k].0), f[k].1))
  }

  /** One more entry appends its pairs. */
  lemma PartsStep(prefix: Option<string>, f: Fields, n: nat)
    requires n < |f|
    ensures Concat(Parts(prefix, f, n + 1)) == Concat(Parts(prefix, f, n)) + EntryPairs(ParamKey(prefix, f[n].0), f[n].1)
  {
    assert Parts(prefix, f, n + 1)[..n] == Parts(prefix, f, n);
  }

  /** `flatten_query`: the loop over the entries, appending to `result`, recursing into nested
      hashes. */
  method FlattenQuery(query: Value, prefix: Option<string>) returns (result: seq<(string, Value)>)
    requires query.VHash?
    ensures result == Flatten(query, prefix)
    decreases query
  {
    var f := query.fields;
    result := [];
    var i := 0;
    while i < |f|
      invariant 0 <= i <= |f|
      invariant result == Concat(Parts(prefix, f, i))
    {
      var key := ParamKey(prefix, f[i].0);
      var value := f[i].1;
      var before := result;
      match value {
        case VHash(_) =>
          var sub := FlattenQuery(value, Some(key));
          result := result + sub;
        case VArr(items) =>
          var j := 0;
          while j < |items|
            invariant 0 <= j <= |items|
            invariant result == before + seq(j, m requires 0 <= m < j => (key, items[m]))
          {
            result := result + [(key, items[j])];
            j := j + 1;
          }
        case VNil =>
        case _ =>
          result := result + [(key, value)];
      }
      assert result == before + EntryPairs(key, value);
      PartsStep(prefix, f, i);
      i := i + 1;
    }
    assert Parts(prefix, f, |f|) == seq(|f|, k requires 0 <= k < |f| => EntryPairs(ParamKey(prefix, f[k].0), f[k].1));
  }

  lemma {:induction false} ConcatAllKeys(parts: seq<seq<(string, Value)>>, p: string)
    requires forall i, j :: 0 <= i < |parts| && 0 <= j < |parts[i]| ==> StartsWith(parts[i][j].0, p)
    ensures forall j :: 0 <= j < |Concat(parts)| ==> StartsWith(Concat(parts)[j].0, p)
    decreases |parts|
  {
    if parts != [] {
      ConcatAllKeys(parts[..|parts| - 1], p);
    }
  }

  /** Under a nested hash every key carries the outer key and an opening bracket in front. */
  lemma {:induction false} NestedKeysArePrefixed(v: Value, p: string)
    ensures forall j :: 0 <= j < |Flatten(v, Some(p))| ==> StartsWith(Flatten(v, Some(p))[j].0, p + "[")
    decreases v, 0
  {
    if v.VHash? {
      var f := v.fields;
      var parts: seq<seq<(string, Value)>> := seq(|f|, i requires 0 <= i < |f| => EntryPairs(ParamKey(Some(p), f[i].0), f[i].1));
      forall i, j | 0 <= i < |parts| && 0 <= j < |parts[i]| ensures StartsWith(parts[i][j].0, p + "[") {
        var key := ParamKey(Some(p), f[i].0);
        assert key == p + "[" + f[i].0.name + "]";
        assert StartsWith(key, p + "[") by { assert key[..|p + "["|] == p + "["; }
        EntryKeysArePrefixed(key, f[i].1, p + "[");
      }
      ConcatAllKeys(parts, p + "[");
    }
  }

  lemma {:induction false} EntryKeysArePrefixed(key: string, w: Value, p: string)
    requires StartsWith(key, p)
    ensures forall j :: 0 <= j < |EntryPairs(key, w)| ==> StartsWith(EntryPairs(key, w)[j].0, p)
    decreases w, 1
  {
    if w.VHash? {
      NestedKeysArePrefixed(w, key);
      forall j | 0 <= j < |Flatten(w, Some(key))| ensures StartsWith(Flatten(w, Some(key))[j].0, p) {
        var s := Flatten(w, Some(key))[j].0;
        assert StartsWith(s, key + "[");
        assert s[..|p|] == (key + "[")[..|p|] == p;
      }
    }
  }

  /** A hash of plain values flattens to its entries, in order, with the keys as text. */
  lemma {:induction false} FlatHashInOrder(f: Fields)
    requires forall i :: 0 <= i < |f| ==> !f[i].1.VHash? && !f[i].1.VArr? && !f[i].1.VNil?
    ensures Flatten(VHash(f), None) == seq(|f|, i requires 0 <= i < |f| => (f[i].0.name, f[i].1))
    decreases |f|
  {
    if f != [] {
      var init := f[..|f| - 1];
      FlatHashInOrder(init);
      var parts := seq(|f|, i requires 0 <= i < |f| => EntryPairs(ParamKey(None, f[i].0), f[i].1));
      assert parts[..|f| - 1] == seq(|init|, i requires 0 <= i < |init| => EntryPairs(ParamKey(None, init[i].0), init[i].1));
      assert parts[|f| - 1] == [(f[|f| - 1].0.name, f[|f| - 1].1)];
    }
  }

  /** Nested hashes become bracketed keys, arrays repeat their key, nil values vanish. */
  lemma FlattenExample()
    ensures Flatten(VHash([(KStr("a"), VHash([(KStr("b"), VInt(1)), (KStr("c"), VNil)])),
                           (KStr("d"), VArr([VInt(1), VInt(2)]))]), None)
            == [("a[b]", VInt(1)), ("d", VInt(1)), ("d", VInt(2))]
  {
    var inner := VHash([(KStr("b"), VInt(1)), (KStr("c"), VNil)]);
    assert ParamKey(Some("a"), KStr("b")) == "a[b]";
    assert ParamKey(Some("a"), KStr("c")) == "a[c]";
    assert ParamKey(None, KStr("a")) == "a" && ParamKey(None, KStr("d")) == "d";
    assert EntryPairs("a[b]", VInt(1)) == [("a[b]", VInt(1))];
    assert EntryPairs("a[c]", VNil) == [];
    var ip := seq(2, i requires 0 <= i < 2 => EntryPairs(ParamKey(Some("a"), inner.fields[i].0), inner.fields[i].1));
    assert ip == [[("a[b]", VInt(1))], []];
    assert Concat(ip) == [("a[b]", VInt(1))] by {
      assert ip[..1] == [[("a[b]", VInt(1))]];
      assert Concat(ip[..1]) == [("a[b]", VInt(1))] by { assert ip[..1][..0] == []; }
    }
    assert Flatten(inner, Some("a")) == [("a[b]", VInt(1))];
    var d := VArr([VInt(1), VInt(2)]);
    assert EntryPairs("d", d) == [("d", VInt(1)), ("d", VInt(2))];
    var top := VHash([(KStr("a"), inner), (KStr("d"), d)]);
    var tp := seq(2, i requires 0 <= i < 2 => EntryPairs(ParamKey(None, top.fields[i].0), top.fields[i].1));
    assert tp == [[("a[b]", VInt(1))], [("d", VInt(1)), ("d", VInt(2))]];
    assert tp[..1] == [[("a[b]", VInt(1))]];
    assert Concat(tp[..1]) == [("a[b]", VInt(1))] by { assert tp[..1][..0] == []; }
  }

  /** `build_url`: one leading `/` of the path dropped, the path placed under
      `<base>/<version>/`, and a non-empty query appended after `?`, or `&` when the address already
      has a `?`. The query's keys are snake-cased before flattening. */
  function BuildUrl(c: Client, path: string, query: Option<Fields>): (u: RequestUrl)
    ensures u.address == c.baseUrl + "/" + c.graphVersion + "/" + DropAtLineStart(path, '/', true)
    ensures u.query.None? <==> query.None? || query.value == []
    ensures u.query.Some? ==> u.query.value.0 == (if '?' in u.address then '&' else '?')
    ensures u.query.Some? ==> u.query.value.1 == Flatten(DeepSnake(VHash(query.value)), None)
  {
    var address := c.baseUrl + "/" + c.graphVersion + "/" + DropAtLineStart(path, '/', true);
    if query.None? || query.value == [] then RequestUrl(address, None)
    else RequestUrl(address, Some((if '?' in address then '&' else '?', Flatten(DeepSnake(VHash(query.value)), None))))
  }

  /** A path with or without its leading slash gives the same address. */
  lemma LeadingSlashIgnored(c: Client, p: string)
    requires !LineStartsWith(p, '/')
    ensures BuildUrl(c, "/" + p, None).address == BuildUrl(c, p, None).address ==
            c.baseUrl + "/" + c.graphVersion + "/" + p
  {
    assert ("/" + p)[1..] == p;
    forall i | 1 <= i < |p| ensures !(p[i] == '/' && p[i - 1] == '\n') {
      assert !(0 <= i < |p| && p[i] == '/' && (i == 0 || p[i - 1] == '\n'));
    }
    assert |p| > 0 ==> p[0] != '/';
    DropAtLineStartUnchanged(p, '/', true);
  }

  // ---------------------------------------------------------------- requests and responses

  datatype Verb = GET | POST | PATCH | DELETE

  /** A body: none, a payload sent as `payload.to_json`, or multipart form fields. */
  datatype Body = NoBody | JsonBody(payload: Value) | FormBody(form: Fields)

  /** `response_type:`: `:json`, `:raw`, `:auto` (the default) or any other symbol. */
  datatype ResponseType = AsJson | AsRaw | AsAuto | AsOther

  /** The arguments of one `client.request(method, path, query:, body:, headers:, response_type:)`. */
  datatype ApiCall = ApiCall(verb: Verb, path: string, query: Option<Fields>, body: Body, headers: Fields, responseType: ResponseType)

  /** The call every resource makes: JSON reply, no extra headers. */
  function JsonCall(verb: Verb, path: string, query: Option<Fields>, body: Body): (a: ApiCall)
    ensures a.responseType == AsJson && a.headers == []
    ensures a.verb == verb && a.path == path && a.query == query && a.body == body
  {
    ApiCall(verb, path, query, body, [], AsJson)
  }

  /** Faraday's `success?`. */
  predicate Successful(status: int) { 200 <= status < 300 }

  /** `parse_json_response`: a blank body is a success marker; otherwise the parsed value with its
      keys snake-cased; a parser error is a Graph API error carrying the status and the raw body. */
  function ParseJsonResponse(resp: HttpResponse, env: Env): (r: Result<Reply, Failure>)
    ensures IsBlank(resp.body) ==> r == Success(SuccessMarker(VBool(true)))
    ensures !IsBlank(resp.body) && env.parse(resp.body.value).Parsed? ==>
              r == Success(Json(DeepSnake(env.parse(resp.body.value).value)))
    ensures !IsBlank(resp.body) && env.parse(resp.body.value).ParseError? ==>
              r.Failure? && r.error.GraphApi? &&
              r.error.error.message == "Invalid JSON response: " + env.parse(resp.body.value).reason &&
              r.error.error.httpStatus == resp.status && r.error.error.rawResponse == VStr(resp.body.value)
  {
    if IsBlank(resp.body) then Success(SuccessMarker(VBool(true)))
    else
      match env.parse(resp.body.value)
      case Parsed(v) => Success(Json(DeepSnake(v)))
      case ParseError(reason) =>
        var a := Args(resp.status).(message := VStr("Invalid JSON response: " + reason), rawResponse := VStr(resp.body.value));
        CodeAlwaysCategorized(resp.status);
        match NewApiError(a)
        case Success(e) => Failure(GraphApi(e))
        case Failure(f) => assert false; Failure(f)
  }

  /** As written, a 2xx reply with a blank body cannot be read by any resource that wraps it in a
      `GraphSuccessResponse`: `parse_json_response` already returns one, and indexing it with
      `['success']` raises. */
  lemma BlankReplyRaises(resp: HttpResponse, env: Env)
    requires IsBlank(resp.body)
    ensures ParseJsonResponse(resp, env).Success?
    ensures SuccessResponse(Some(ParseJsonResponse(resp, env).value)).Failure?
  {
  }

  /** Taking the flag of a success marker reads the same reply as a success. */
  lemma BlankReplyAccepted(resp: HttpResponse, env: Env)
    requires IsBlank(resp.body)
    ensures ParseJsonResponse(resp, env).Success?
    ensures SuccessResponseFixed(Some(ParseJsonResponse(resp, env).value)) == Success(VBool(true))
  {
  }

  lemma CodeAlwaysCategorized(status: int)
    ensures CategorizeErrorCode(VInt(status), status).Some?
  {
  }

  /** An invalid JSON body on a successful response is classified as a permission error: its code
      defaults to the 2xx status, which the code table files under permission. */
  lemma InvalidJsonLooksLikePermission(resp: HttpResponse, env: Env)
    requires Successful(resp.status) && !IsBlank(resp.body) && env.parse(resp.body.value).ParseError?
    ensures ParseJsonResponse(resp, env).Failure?
    ensures ParseJsonResponse(resp, env).error.GraphApi?
    ensures ParseJsonResponse(resp, env).error.error.category == Permission
    ensures ParseJsonResponse(resp, env).error.error.retryHint == RetryHint(FixAndRetry, None)
  {
    CodeCategoryBelow400(resp.status, resp.status, Permission);
    if !(forall k :: !InCategory(resp.status, k)) {
      var k :| InCategory(resp.status, k);
      assert k == Permission;
    }
  }

  /** `json_body || {}`: the body parsed when it is not blank; a parser error or a JSON null or
      false gives `{}`. */
  function ErrorBody(resp: HttpResponse, env: Env): (b: Value)
    ensures IsBlank(resp.body) || env.parse(resp.body.value).ParseError? ==> b == VHash([])
    ensures !IsBlank(resp.body) && env.parse(resp.body.value).Parsed? && Truthy(env.parse(resp.body.value).value) ==>
              b == env.parse(resp.body.value).value
  {
    var json := if !IsBlank(resp.body) && env.parse(resp.body.value).Parsed? then env.parse(resp.body.value).value else VNil;
    Or(json, VHash([]))
  }

  /** What raising the outcome of `from_response` leaves the caller with. */
  function Raised(e: Result<ApiError, Failure>): (r: Result<Reply, Failure>)
    ensures r.Failure?
    ensures e.Success? ==> r.error == GraphApi(e.value)
    ensures e.Failure? ==> r.error == e.error
  {
    match e
    case Success(err) => Failure(GraphApi(err))
    case Failure(f) => Failure(f)
  }

  /** `handle_error_response`: `from_response` as written, on the parsed body and the body text;
      it always ends in an error. A body with an `error` key is read as a Graph API envelope, one
      without as a generic HTTP error, and a blank or unparsable body is a generic error on `{}`. */
  function HandleErrorResponse(resp: HttpResponse, env: Env): (r: Result<Reply, Failure>)
    ensures r.Failure?
    ensures var b := NormalizeBody(ErrorBody(resp, env), env.parse);
            var ms := ParseRetryAfter(resp.retryAfter, env);
            (HasErrorKey(b) ==> r == Raised(EnvelopeError(resp.status, At(b.fields, KStr("error")), b, ms))) &&
            (b.VHash? && !HasErrorKey(b) ==> r.error == GraphApi(GenericError(resp.status, b, resp.body, ms).value)) &&
            (!b.VHash? ==> r.error.TypeFault?)
    ensures IsBlank(resp.body) || env.parse(resp.body.value).ParseError? ==>
              r.error == GraphApi(GenericError(resp.status, VHash([]), resp.body, ParseRetryAfter(resp.retryAfter, env)).value)
  {
    Raised(FromResponse(resp, ErrorBody(resp, env), resp.body, env))
  }

  /** On the request path a Kapso proxy error `{ "error": "<text>" }` reaches the caller without
      its text: the proxy's 401 "Unauthorized" is raised as "Meta API request failed with status
      401". */
  lemma ProxyErrorTextLost(env: Env, body: string)
    requires env.parse(body) == Parsed(VHash([(KStr("error"), VStr("Unauthorized"))])) && !IsBlankText(body)
    ensures var r := HandleResponse(HttpResponse(401, None, None, Some(body)), AsJson, env);
      r.Failure? && r.error.GraphApi? && r.error.error.message == "Meta API request failed with status 401"
  {
    var resp := HttpResponse(401, None, None, Some(body));
    var b := VHash([(KStr("error"), VStr("Unauthorized"))]);
    assert ErrorBody(resp, env) == b;
    NotContainsChar("Unauthorized", "message", 0);
    StringErrorLosesMessage(resp, "Unauthorized", Some(body), env);
    Status401Message();
  }

  /** `handle_response`: a non-2xx response raises before anything is decoded; otherwise the
      response type chooses between the parsed body, the raw response, a success marker for 204,
      and the body text. */
  function HandleResponse(resp: HttpResponse, responseType: ResponseType, env: Env): (r: Result<Reply, Failure>)
    ensures !Successful(resp.status) ==> r == HandleErrorResponse(resp, env) && r.Failure?
    ensures Successful(resp.status) && responseType == AsJson ==> r == ParseJsonResponse(resp, env)
    ensures Successful(resp.status) && responseType == AsRaw ==> r == Success(RawResponse(resp))
    ensures Successful(resp.status) && responseType == AsAuto ==>
              (Contains(resp.contentType.GetOr(""), "application/json") ==> r == ParseJsonResponse(resp, env)) &&
              (!Contains(resp.contentType.GetOr(""), "application/json") && resp.status == 204 ==>
                 r == Success(SuccessMarker(VBool(true)))) &&
              (!Contains(resp.contentType.GetOr(""), "application/json") && resp.status != 204 ==>
                 r == Success(BodyText(resp.body)))
    ensures Successful(resp.status) && responseType == AsOther ==> r == Success(BodyText(resp.body))
  {
    if !Successful(resp.status) then HandleErrorResponse(resp, env)
    else
      match responseType
      case AsJson => ParseJsonResponse(resp, env)
      case AsRaw => Success(RawResponse(resp))
      case AsAuto =>
        if Contains(resp.contentType.GetOr(""), "application/json") then ParseJsonResponse(resp, env)
        else if resp.status == 204 then Success(SuccessMarker(VBool(true)))
        else Success(BodyText(resp.body))
      case AsOther => Success(BodyText(resp.body))
  }

  /** An envelope with an Integer code and well-formed error data decodes to an error that keeps
      that code. */
  lemma EnvelopeDecodes(status: int, payload: Fields, body: Value, ms: Option<int>)
    requires HasKey(payload, KStr("code")) && At(payload, KStr("code")).VInt?
    requires At(payload, KStr("error_data")).VNil? || At(payload, KStr("error_data")).VHash?
    ensures EnvelopeError(status, VHash(payload), body, ms).Success?
    ensures EnvelopeError(status, VHash(payload), body, ms).value.code == At(payload, KStr("code"))
  {
    assert Indexable(VHash(payload));
    assert Get(VHash(payload), "code") == At(payload, KStr("code"));
    var code := Or(Get(VHash(payload), "code"), VInt(status));
    assert code.VInt?;
    assert CategorizeErrorCode(code, status).Some?;
  }

  /** An error response with a Graph API envelope surfaces as that error, with the response's
      status. */
  lemma ErrorEnvelopeSurfaces(resp: HttpResponse, env: Env, payload: Fields)
    requires !Successful(resp.status) && resp.body.Some? && !IsBlankText(resp.body.value)
    requires env.parse(resp.body.value) == Parsed(VHash([(KStr("error"), VHash(payload))]))
    requires HasKey(payload, KStr("code")) && At(payload, KStr("code")).VInt?
    requires At(payload, KStr("error_data")).VNil? || At(payload, KStr("error_data")).VHash?
    ensures HandleResponse(resp, AsJson, env).Failure?
    ensures HandleResponse(resp, AsJson, env).error.GraphApi?
    ensures HandleResponse(resp, AsJson, env).error.error.httpStatus == resp.status
    ensures HandleResponse(resp, AsJson, env).error.error.code == At(payload, KStr("code"))
  {
    var b := VHash([(KStr("error"), VHash(payload))]);
    assert HasKey(b.fields, KStr("error")) by { assert b.fields[0].0 == KStr("error"); }
    assert At(b.fields, KStr("error")) == VHash(payload);
    var ms := ParseRetryAfter(resp.retryAfter, env);
    assert ErrorBody(resp, env) == b;
    assert FromResponse(resp, b, resp.body, env) == EnvelopeError(resp.status, VHash(payload), b, ms);
    EnvelopeDecodes(resp.status, payload, b, ms);
  }

  /** `fetch`: the response itself when successful, the error response handling otherwise. */
  function Fetch(resp: HttpResponse, env: Env): (r: Result<HttpResponse, Failure>)
    ensures Successful(resp.status) <==> r.Success?
    ensures r.Success? ==> r.value == resp
    ensures r.Failure? ==> Failure(r.error) == HandleErrorResponse(resp, env)
  {
    if Successful(resp.status) then Success(resp)
    else Failure(HandleErrorResponse(resp, env).error)
  }

  // ---------------------------------------------------------------- retry loop

  /** The outcome of one transport attempt. */
  datatype Transport =
    | Delivered(response: HttpResponse)
    | TimeoutError(message: string)
    | ConnectionFailed(message: string)
    | ServerError(message: string)
    | OtherTransportError(message: string)

  /** `retryable_error?`: timeouts, failed connections and server errors. */
  predicate RetryableError(t: Transport) {
    t.TimeoutError? || t.ConnectionFailed? || t.ServerError?
  }

  /** The error `request` raises when the transport gives up. */
  function NetworkError(message: string): (e: ApiError)
    ensures e.message == "Network error: " + message && e.httpStatus == 0 && e.category == Server
  {
    var a := Args(0).(message := VStr("Network error: " + message), category := Some(Server));
    NewApiError(a).value
  }

  /** The network error's code defaults to its status, 0, which is one of the token-refresh codes;
      so it tells the caller to refresh the token although it is a server-category error. */
  lemma NetworkErrorAsksForTokenRefresh(message: string)
    ensures NetworkError(message).code == VInt(0)
    ensures NetworkError(message).retryHint == RetryHint(RefreshToken, None)
    ensures RequiresTokenRefresh(NetworkError(message)) && Temporary(NetworkError(message))
  {
    assert 0 in RefreshTokenCodes;
    assert !Listed(VInt(0), DoNotRetryCodes);
  }

  /** The request as it goes to the transport. */
  datatype SentRequest = SentRequest(verb: Verb, url: RequestUrl, headers: Fields, body: Body)

  /** The retry loop of `request`: the transport is tried until it delivers a response, fails
      with an error that is not retryable, or has failed `max_retries + 1` times. After the n-th
      failure the client sleeps `retry_delay × n`. */
  method Transmit(maxRetries: int, retryDelayMs: int, transport: nat -> Transport) returns (attempts: nat, delays: seq<int>)
    ensures attempts >= 1 && |delays| == attempts - 1
    ensures attempts == 1 || attempts <= maxRetries + 1
    ensures forall k :: 0 <= k < |delays| ==> delays[k] == retryDelayMs * (k + 1)
    ensures forall k :: 0 <= k < attempts - 1 ==> RetryableError(transport(k))
    ensures !transport(attempts - 1).Delivered? ==> attempts > maxRetries || !RetryableError(transport(attempts - 1))
  {
    var retries := 0;
    delays := [];
    while true
      invariant retries >= 0 && |delays| == retries
      invariant retries == 0 || retries <= maxRetries
      invariant forall k :: 0 <= k < retries ==> delays[k] == retryDelayMs * (k + 1)
      invariant forall k :: 0 <= k < retries ==> RetryableError(transport(k))
      decreases maxRetries - retries
    {
      var outcome := transport(retries);
      if outcome.Delivered? {
        attempts := retries + 1;
        return;
      }
      retries := retries + 1;
      if retries <= maxRetries && RetryableError(outcome) {
        delays := delays + [retryDelayMs * retries];
      } else {
        attempts := retries;
        return;
      }
    }
  }

  /** `request`: URL and headers are built once, the transport is tried as `Transmit` says, and
      a delivered response is handled without retrying, whatever its status; a transport error
      that ends the loop becomes a network error. */
  method Request(c: Client, call: ApiCall, transport: nat -> Transport, env: Env)
    returns (result: Result<Reply, Failure>, sent: SentRequest, attempts: nat, delays: seq<int>)
    ensures sent.verb == call.verb && sent.url == BuildUrl(c, call.path, call.query) && sent.body == call.body
    ensures BuiltHeaders(c, call.headers, sent.headers)
    ensures attempts >= 1 && |delays| == attempts - 1
    ensures attempts == 1 || attempts <= c.maxRetries + 1
    ensures forall k :: 0 <= k < |delays| ==> delays[k] == c.retryDelayMs * (k + 1)
    ensures forall k :: 0 <= k < attempts - 1 ==> RetryableError(transport(k))
    ensures transport(attempts - 1).Delivered? ==>
              result == HandleResponse(transport(attempts - 1).response, call.responseType, env)
    ensures !transport(attempts - 1).Delivered? ==>
              result == Failure(GraphApi(NetworkError(transport(attempts - 1).message))) &&
              (attempts > c.maxRetries || !RetryableError(transport(attempts - 1)))
  {
    var url := BuildUrl(c, call.path, call.query);
    var headers := BuildHeaders(c, call.headers);
    sent := SentRequest(call.verb, url, headers, call.body);
    attempts, delays := Transmit(c.maxRetries, c.retryDelayMs, transport);
    var outcome := transport(attempts - 1);
    if outcome.Delivered? {
      result := HandleResponse(outcome.response, call.responseType, env);
    } else {
      result := Failure(GraphApi(NetworkError(outcome.message)));
    }
  }
}
