/** Tool schemas, tool configuration, and the pure parts of the HTTP-backed
    tool (agent-core/packages/agent/tools/config.go, http.go, and the schema
    types of tools.go). The network round trip itself is not modelled: the
    model builds the request and, separately, interprets a response status
    and decoded body handed to it. */
module HttpTools {
  import opened Wrappers
  import opened JsonValues
  import Strs

  /** One schema property. (The `Enum` field is never filled by the core.) */
  datatype Property = Property(typ: string, description: string)

  /** A tool's JSON-Schema-like parameter description. */
  datatype ToolParameters = ToolParameters(typ: string, properties: map<string, Property>, required: seq<string>)

  /** Authentication of an HTTP tool. */
  datatype HttpAuthConfig = HttpAuthConfig(authType: string, apiKey: string, header: string)

  /** A tool configuration. The MCP and command fields are carried by the
      source but never read by the core, so they are not modelled. */
  datatype ToolConfig = ToolConfig(
    toolType: string,
    name: string,
    description: string,
    parameters: Option<map<string, Json>>,
    endpoint: string,
    httpMethod: string,
    auth: Option<HttpAuthConfig>,
    responsePath: string,
    responseMap: map<string, string>)

  /** An HTTP tool as built from a configuration. */
  datatype HttpTool = HttpTool(
    name: string,
    description: string,
    endpoint: string,
    httpMethod: string,
    parameters: Option<map<string, Json>>,
    auth: Option<HttpAuthConfig>,
    responsePath: string,
    responseMap: map<string, string>)

  /** `NewHTTPTool`: refuses a non-"http" type, then a missing name or
      endpoint; otherwise copies the configuration. */
  function NewHttpTool(cfg: ToolConfig): (r: Result<HttpTool, string>)
    ensures r.Ok? <==> cfg.toolType == "http" && cfg.name != "" && cfg.endpoint != ""
    ensures cfg.toolType != "http" ==> r == Err("ToolConfig type is " + Strs.Quote(cfg.toolType) + ", not http")
    ensures cfg.toolType == "http" && (cfg.name == "" || cfg.endpoint == "") ==>
              r == Err("http tool requires name and endpoint")
    ensures r.Ok? ==>
              (r.value.name == cfg.name && r.value.description == cfg.description
               && r.value.endpoint == cfg.endpoint && r.value.httpMethod == cfg.httpMethod
               && r.value.parameters == cfg.parameters && r.value.auth == cfg.auth
               && r.value.responsePath == cfg.responsePath && r.value.responseMap == cfg.responseMap)
  {
    if cfg.toolType != "http" then Err("ToolConfig type is " + Strs.Quote(cfg.toolType) + ", not http")
    else if cfg.name == "" || cfg.endpoint == "" then Err("http tool requires name and endpoint")
    else Ok(HttpTool(cfg.name, cfg.description, cfg.endpoint, cfg.httpMethod, cfg.parameters,
                     cfg.auth, cfg.responsePath, cfg.responseMap))
  }

  /** `Parameters`: always of type "object". Only map-valued properties are
      kept, each with its string `type` and `description` (or ""); only the
      string entries of a `required` list are kept. */
  function Parameters(t: HttpTool): (p: ToolParameters)
    ensures p.typ == "object"
    ensures forall k :: k in p.properties <==>
              t.parameters.Some? && "properties" in t.parameters.value
              && t.parameters.value["properties"].JObject?
              && k in t.parameters.value["properties"].fields
              && t.parameters.value["properties"].fields[k].JObject?
    ensures forall k :: k in p.properties ==>
              var pm := t.parameters.value["properties"].fields[k].fields;
              p.properties[k] == Property(StringField(pm, "type"), StringField(pm, "description"))
    ensures t.parameters.None? ==> p.required == []
    ensures !(t.parameters.Some? && "required" in t.parameters.value && t.parameters.value["required"].JArray?) ==>
              p.required == []
    ensures t.parameters.Some? && "required" in t.parameters.value && t.parameters.value["required"].JArray? ==>
              p.required == StringsOf(t.parameters.value["required"].items)
  {
    match t.parameters
    case None => ToolParameters("object", map[], [])
    case Some(params) =>
      var props :=
        if "properties" in params && params["properties"].JObject? then
          var pm := params["properties"].fields;
          map k | k in pm && pm[k].JObject? ::
            Property(StringField(pm[k].fields, "type"), StringField(pm[k].fields, "description"))
        else map[];
      var required :=
        if "required" in params && params["required"].JArray? then StringsOf(params["required"].items)
        else [];
      ToolParameters("object", props, required)
  }

  /** The first required key absent from the arguments, scanning in order. */
  function FirstMissing(required: seq<string>, args: map<string, Json>): (r: Option<string>)
    ensures r.None? <==> forall i :: 0 <= i < |required| ==> required[i] in args
    ensures r.Some? ==> r.value in required && r.value !in args
    ensures r.Some? ==>
              (exists i :: (0 <= i < |required| && required[i] == r.value
                            && forall j :: 0 <= j < i ==> required[j] in args))
  {
    if |required| == 0 then None
    else if required[0] !in args then Some(required[0])
    else
      var rest := FirstMissing(required[1..], args);
      if rest.Some? then
        ghost var i :| 0 <= i < |required[1..]| && required[1..][i] == rest.value
                       && forall j :: 0 <= j < i ==> required[1..][j] in args;
        assert required[i + 1] == rest.value;
        rest
      else rest
  }

  /** The request an HTTP tool would send. */
  datatype HttpRequest = HttpRequest(httpMethod: string, url: string, headers: map<string, string>, body: string)

  /** The method used: the configured one, or "POST" when empty. */
  function EffectiveMethod(t: HttpTool): (m: string)
    ensures t.httpMethod == "" ==> m == "POST"
    ensures t.httpMethod != "" ==> m == t.httpMethod
  {
    if t.httpMethod == "" then "POST" else t.httpMethod
  }

  /** A character of an HTTP token (section 5.6.2 of RFC 9110): letters,
      digits and ``!#$%&'*+-.^_`|~``. */
  predicate IsTokenChar(c: char) {
    ('a' <= c <= 'z') || ('A' <= c <= 'Z') || ('0' <= c <= '9')
    || c == '!' || ('#' <= c <= '\'') || c == '*' || c == '+' || c == '-' || c == '.'
    || c == '^' || c == '_' || c == '`' || c == '|' || c == '~'
  }

  /** One character in canonical word case: upper case when it starts a
      word, lower case otherwise; non-letters are kept. */
  function WordCase(c: char, upper: bool): char {
    if upper && 'a' <= c <= 'z' then (c as int - 32) as char
    else if !upper && 'A' <= c <= 'Z' then (c as int + 32) as char
    else c
  }

  /** Upper-cases the first letter and every letter right after a '-', and
      lower-cases the others; `upper` says whether the next letter starts a
      word. */
  function CanonicalWords(s: string, upper: bool): (r: string)
    ensures |r| == |s|
  {
    if |s| == 0 then "" else [WordCase(s[0], upper)] + CanonicalWords(s[1..], s[0] == '-')
  }

  /** Every character is a token character. */
  predicate AllTokenChars(s: string) {
    |s| == 0 || (IsTokenChar(s[0]) && AllTokenChars(s[1..]))
  }

  /** `textproto.CanonicalMIMEHeaderKey`, which `Header.Set` applies to every
      name: a name holding any character outside the token set is kept as it
      is; any other name is written in canonical word case, so names that
      differ only in letter case denote the same header. */
  function CanonicalKey(name: string): (k: string)
    ensures |k| == |name|
    ensures !AllTokenChars(name) ==> k == name
  {
    if AllTokenChars(name) then CanonicalWords(name, true) else name
  }

  /** Canonical word case keeps token characters token characters, and keeps
      every '-' where it was. */
  lemma {:induction false} CanonicalWordsShape(s: string, upper: bool)
    ensures AllTokenChars(CanonicalWords(s, upper)) <==> AllTokenChars(s)
    ensures |s| > 0 ==> (CanonicalWords(s, upper)[0] == '-' <==> s[0] == '-')
    decreases |s|
  {
    if |s| > 0 {
      CanonicalWordsShape(s[1..], s[0] == '-');
      assert CanonicalWords(s, upper)[1..] == CanonicalWords(s[1..], s[0] == '-');
    }
  }

  /** Canonical word case is stable: rewriting it again changes nothing. */
  lemma {:induction false} CanonicalWordsIdempotent(s: string, upper: bool)
    ensures CanonicalWords(CanonicalWords(s, upper), upper) == CanonicalWords(s, upper)
    decreases |s|
  {
    if |s| > 0 {
      var r := CanonicalWords(s, upper);
      CanonicalWordsShape(s, upper);
      CanonicalWordsIdempotent(s[1..], s[0] == '-');
      assert r[1..] == CanonicalWords(s[1..], s[0] == '-');
    }
  }

  /** A canonical name is its own canonical form. */
  lemma CanonicalKeyIdempotent(name: string)
    ensures CanonicalKey(CanonicalKey(name)) == CanonicalKey(name)
  {
    if AllTokenChars(name) {
      CanonicalWordsShape(name, true);
      CanonicalWordsIdempotent(name, true);
    }
  }

  /** Letter case aside, two characters are the same. */
  predicate SameUpToCase(c: char, d: char) {
    c == d || (('a' <= c <= 'z') && d as int == c as int - 32) || (('A' <= c <= 'Z') && d as int == c as int + 32)
  }

  /** Names that differ only in letter case have the same canonical form:
      header names are case-insensitive. */
  lemma {:induction false} CanonicalKeyIgnoresCase(a: string, b: string)
    requires |a| == |b| && forall k :: 0 <= k < |a| ==> SameUpToCase(a[k], b[k])
    ensures CanonicalKey(a) == CanonicalKey(b) || (!AllTokenChars(a) && !AllTokenChars(b))
  {
    SameCaseWords(a, b, true);
  }

  lemma {:induction false} SameCaseWords(a: string, b: string, upper: bool)
    requires |a| == |b| && forall k :: 0 <= k < |a| ==> SameUpToCase(a[k], b[k])
    ensures CanonicalWords(a, upper) == CanonicalWords(b, upper)
    ensures AllTokenChars(a) <==> AllTokenChars(b)
    decreases |a|
  {
    if |a| > 0 {
      SameCaseWords(a[1..], b[1..], a[0] == '-');
      assert a[0] == '-' <==> b[0] == '-';
    }
  }

  /** The headers sent: `Content-Type: application/json`, then, for
      "bearer" and "apikey" auth, `"Bearer " + key` under the canonical form
      of the configured header name, or "Authorization". Any other auth type
      adds nothing. A header name that canonicalizes to "Content-Type"
      replaces the JSON content type. */
  function RequestHeaders(t: HttpTool): (h: map<string, string>)
    ensures t.auth.None? || t.auth.value.authType !in {"bearer", "apikey"} ==>
              h == map["Content-Type" := "application/json"]
    ensures t.auth.Some? && t.auth.value.authType in {"bearer", "apikey"} ==>
              var name := CanonicalKey(if t.auth.value.header != "" then t.auth.value.header else "Authorization");
              h.Keys == {"Content-Type", name} && h[name] == "Bearer " + t.auth.value.apiKey
              && (name != "Content-Type" ==> h["Content-Type"] == "application/json")
  {
    // "Content-Type" is already in canonical word case.
    var base := map["Content-Type" := "application/json"];
    match t.auth
    case None => base
    case Some(a) =>
      if a.authType == "bearer" || a.authType == "apikey" then
        var name := if a.header != "" then a.header else "Authorization";
        base[CanonicalKey(name) := "Bearer " + a.apiKey]
      else base
  }

  /** An auth header configured in any letter case lands under the same
      canonical name, so spelling it differently never adds a header. */
  lemma AuthHeaderIgnoresCase(t: HttpTool, other: string)
    requires t.auth.Some? && t.auth.value.header != ""
    requires |other| == |t.auth.value.header| && forall k :: 0 <= k < |other| ==> SameUpToCase(t.auth.value.header[k], other[k])
    requires AllTokenChars(t.auth.value.header)
    ensures RequestHeaders(t.(auth := Some(t.auth.value.(header := other)))) == RequestHeaders(t)
  {
    SameCaseWords(t.auth.value.header, other, true);
  }

  /** The pre-request half of `Execute`: the first missing required argument
      fails with "missing required parameter: <k>" before any request is
      built; then `http.NewRequestWithContext` refuses a method that is not
      an HTTP token, and then an endpoint that `url.Parse` rejects (`urlErr`,
      the parser's error, is an input); otherwise the request carries the
      JSON-encoded arguments. */
  function BuildRequest(t: HttpTool, args: map<string, Json>, encode: Encoder, urlErr: Option<string>)
    : (r: Result<HttpRequest, string>)
    ensures r.Ok? <==> FirstMissing(Parameters(t).required, args).None? && AllTokenChars(EffectiveMethod(t)) && urlErr.None?
    ensures FirstMissing(Parameters(t).required, args).Some? ==>
              r == Err("missing required parameter: " + FirstMissing(Parameters(t).required, args).value)
    ensures FirstMissing(Parameters(t).required, args).None? && !AllTokenChars(EffectiveMethod(t)) ==>
              r == Err("net/http: invalid method " + Strs.Quote(EffectiveMethod(t)))
    ensures FirstMissing(Parameters(t).required, args).None? && AllTokenChars(EffectiveMethod(t)) && urlErr.Some? ==>
              r == Err(urlErr.value)
    ensures r.Ok? ==>
              (r.value.httpMethod == EffectiveMethod(t) && r.value.url == t.endpoint
               && r.value.headers == RequestHeaders(t) && r.value.body == encode(JObject(args)))
  {
    match FirstMissing(Parameters(t).required, args)
    case Some(k) => Err("missing required parameter: " + k)
    case None =>
      if !AllTokenChars(EffectiveMethod(t)) then Err("net/http: invalid method " + Strs.Quote(EffectiveMethod(t)))
      else if urlErr.Some? then Err(urlErr.value)
      else Ok(HttpRequest(EffectiveMethod(t), t.endpoint, RequestHeaders(t), encode(JObject(args))))
  }

  /** A method with a space in it is not a token, so no request is built
      even when every required argument is present. */
  lemma MethodWithSpaceRejected(t: HttpTool, args: map<string, Json>, encode: Encoder, urlErr: Option<string>)
    requires t.httpMethod == "GE T"
    requires FirstMissing(Parameters(t).required, args).None?
    ensures BuildRequest(t, args, encode, urlErr) == Err("net/http: invalid method " + Strs.Quote("GE T"))
  {
    assert !IsTokenChar(' ');
    assert "GE T"[2..] == " T";
    assert !AllTokenChars(" T");
    assert "GE T"[1..][1..] == " T";
  }

  /** The post-response half of `Execute`: a status outside [200, 300) is an
      error carrying the status and body; a decoding failure is returned as
      is; otherwise the response path and then the response map are applied. */
  function HandleResponse(t: HttpTool, status: int, rawBody: string, decoded: Result<Json, string>): (r: Result<Json, string>)
    ensures (status < 200 || status >= 300) ==> r == Err("http " + Strs.IntToString(status) + ": " + rawBody)
    ensures 200 <= status < 300 && decoded.Err? ==> r == Err(decoded.error)
    ensures 200 <= status < 300 && decoded.Ok? ==> r.Ok?
    ensures 200 <= status < 300 && decoded.Ok? && t.responsePath == "" && |t.responseMap| == 0 ==>
              r == decoded
    ensures 200 <= status < 300 && decoded.Ok? ==>
              var picked := if t.responsePath != "" then ExtractPath(decoded.value, t.responsePath) else decoded.value;
              r.value == if |t.responseMap| > 0 && picked != JNull then ApplyResponseMap(picked, t.responseMap) else picked
  {
    if status < 200 || status >= 300 then Err("http " + Strs.IntToString(status) + ": " + rawBody)
    else match decoded
      case Err(e) => Err(e)
      case Ok(out) =>
        var out1 := if t.responsePath != "" then ExtractPath(out, t.responsePath) else out;
        var out2 := if |t.responseMap| > 0 && out1 != JNull then ApplyResponseMap(out1, t.responseMap) else out1;
        Ok(out2)
  }

  /** The separators of a response path. */
  predicate IsPathSep(c: char) {
    c == '.' || c == '[' || c == ']'
  }

  /** The path without its separators. */
  function StripSeps(p: string): string {
    if |p| == 0 then "" else (if IsPathSep(p[0]) then "" else [p[0]]) + StripSeps(p[1..])
  }

  /** `strings.FieldsFunc` on the path separators, continuing a field
      already begun as `cur`: non-empty fields without separators whose
      concatenation is everything that is not a separator. */
  function Fields(p: string, cur: string): (r: seq<string>)
    requires forall k :: 0 <= k < |cur| ==> !IsPathSep(cur[k])
    ensures forall i :: 0 <= i < |r| ==> r[i] != "" && forall k :: 0 <= k < |r[i]| ==> !IsPathSep(r[i][k])
    ensures Strs.Concat(r) == cur + StripSeps(p)
    decreases |p|
  {
    if |p| == 0 then (if cur == "" then [] else [cur])
    else if IsPathSep(p[0]) then
      var rest := Fields(p[1..], "");
      if cur == "" then rest
      else
        assert ([cur] + rest)[1..] == rest;
        [cur] + rest
    else
      var rest := Fields(p[1..], cur + [p[0]]);
      assert cur + [p[0]] + StripSeps(p[1..]) == cur + StripSeps(p);
      rest
  }

  /** No character of `s` is a path separator. */
  predicate SepFree(s: string) {
    forall k :: 0 <= k < |s| ==> !IsPathSep(s[k])
  }

  /** A run without separators is one field (none when empty), joined to
      the field already begun. */
  lemma {:induction false} FieldsOfWord(w: string, cur: string)
    requires SepFree(w) && SepFree(cur)
    ensures Fields(w, cur) == if cur + w == "" then [] else [cur + w]
    decreases |w|
  {
    if |w| == 0 {
      assert cur + w == cur;
    } else {
      assert SepFree(cur + [w[0]]);
      FieldsOfWord(w[1..], cur + [w[0]]);
      assert cur + [w[0]] + w[1..] == cur + w;
    }
  }

  /** A separator ends the field before it and starts afresh after it, so
      the fields of `a + [c] + b` are those of `a` then those of `b`. */
  lemma {:induction false} FieldsSplit(a: string, c: char, b: string, cur: string)
    requires SepFree(a) && SepFree(cur) && IsPathSep(c)
    ensures Fields(a + [c] + b, cur) == Fields(a, cur) + Fields(b, "")
    decreases |a|
  {
    if |a| == 0 {
      assert a + [c] + b == [c] + b && ([c] + b)[1..] == b;
    } else {
      var p := a + [c] + b;
      assert p[0] == a[0] && p[1..] == a[1..] + [c] + b;
      assert SepFree(cur + [a[0]]);
      FieldsSplit(a[1..], c, b, cur + [a[0]]);
    }
  }

  /** The length of the run of decimal digits at the start of `s`. */
  function DigitRun(s: string): (n: nat)
    ensures n <= |s| && forall k :: 0 <= k < n ==> '0' <= s[k] <= '9'
    ensures n < |s| ==> !('0' <= s[n] <= '9')
  {
    if |s| == 0 || !('0' <= s[0] <= '9') then 0 else 1 + DigitRun(s[1..])
  }

  /** `fmt.Sscanf(p, "%d", &i)`: leading spaces (but not a newline) are
      skipped, then an optional sign and at least one decimal digit are read;
      whatever follows is ignored. An integer too wide for int64 is an error in
      Go; every such value is out of range for an array index anyway. */
  function ScanDecimal(p: string): (r: Option<int>)
    ensures r.Some? ==> |p| > 0
  {
    var i := SkipScanSpace(p);
    var s := p[i..];
    var neg := |s| > 0 && s[0] == '-';
    var body := if |s| > 0 && (s[0] == '-' || s[0] == '+') then s[1..] else s;
    var n := DigitRun(body);
    if n == 0 then None
    else
      var v: int := Strs.DigitsValue(body[..n]);
      Some(if neg then -v else v)
  }

  /** Leading white space Sscanf skips before a number (a newline stops it). */
  function SkipScanSpace(p: string): (i: nat)
    ensures i <= |p|
  {
    if |p| == 0 || !Strs.IsSpace(p[0]) || p[0] == '\n' then 0 else 1 + SkipScanSpace(p[1..])
  }

  /** A decimal index written by `%d` scans back to itself. */
  lemma ScanDecimalRoundTrip(n: nat)
    ensures ScanDecimal(Strs.NatToString(n)) == Some(n)
  {
    var s := Strs.NatToString(n);
    assert !Strs.IsSpace(s[0]);
    assert s[0..] == s;
    DigitRunAll(s);
    assert s[..|s|] == s;
    Strs.NatToStringRoundTrip(n);
  }

  lemma DigitRunAll(s: string)
    requires forall k :: 0 <= k < |s| ==> '0' <= s[k] <= '9'
    ensures DigitRun(s) == |s|
  {
    if |s| > 0 {
      DigitRunAll(s[1..]);
    }
  }

  /** Walks a value along path parts: a map looks the key up (missing gives
      null), an array takes an in-bounds decimal index (anything else gives
      null and stops), and any other value stops the walk and is returned. */
  function Walk(v: Json, parts: seq<string>): (r: Json)
    ensures |parts| == 0 ==> r == v
    ensures |parts| > 0 && !v.JObject? && !v.JArray? ==> r == v
    decreases |parts|
  {
    if |parts| == 0 then v
    else match v
      case JObject(m) => Walk(if parts[0] in m then m[parts[0]] else JNull, parts[1..])
      case JArray(a) =>
        var idx := ScanDecimal(parts[0]);
        if idx.Some? && 0 <= idx.value < |a| then Walk(a[idx.value], parts[1..]) else JNull
      case _ => v
  }

  /** `extractPath`. */
  function ExtractPath(v: Json, path: string): Json {
    Walk(v, Fields(path, ""))
  }

  /** A dotted key path selects nested object members in turn; a missing
      key gives null, and null ends the walk. */
  lemma ExtractPathObjects(m: map<string, Json>, k: string, rest: seq<string>)
    ensures k in m ==> Walk(JObject(m), [k] + rest) == Walk(m[k], rest)
    ensures k in m ==> Walk(JObject(m), [k]) == m[k]
    ensures k !in m ==> Walk(JObject(m), [k] + rest) == JNull
  {
    assert ([k] + rest)[1..] == rest;
  }

  /** An array step reads its part with `%d`: a readable index in bounds
      selects that element and the walk goes on; anything else (no number,
      a negative number, an index past the end) gives null and stops. */
  lemma ExtractPathArrayStep(a: seq<Json>, p: string, rest: seq<string>)
    ensures var idx := ScanDecimal(p);
            idx.Some? && 0 <= idx.value < |a| ==> Walk(JArray(a), [p] + rest) == Walk(a[idx.value], rest)
    ensures var idx := ScanDecimal(p);
            !(idx.Some? && 0 <= idx.value < |a|) ==> Walk(JArray(a), [p] + rest) == JNull
  {
    assert ([p] + rest)[1..] == rest;
  }

  /** An array step with the decimal index `i` selects element `i` when in
      bounds, and gives null otherwise. */
  lemma ExtractPathIndex(a: seq<Json>, i: nat, rest: seq<string>)
    ensures i < |a| ==> Walk(JArray(a), [Strs.NatToString(i)] + rest) == Walk(a[i], rest)
    ensures i >= |a| ==> Walk(JArray(a), [Strs.NatToString(i)] + rest) == JNull
  {
    ScanDecimalRoundTrip(i);
    assert ([Strs.NatToString(i)] + rest)[1..] == rest;
  }

  /** `applyResponseMap`: a non-object passes through; an object becomes the
      output keys whose input key is present, each with that input value. */
  function ApplyResponseMap(v: Json, m: map<string, string>): (r: Json)
    ensures !v.JObject? ==> r == v
    ensures v.JObject? ==> r.JObject?
    ensures v.JObject? ==> forall k :: k in r.fields <==> k in m && m[k] in v.fields
    ensures v.JObject? ==> forall k :: k in r.fields ==> r.fields[k] == v.fields[m[k]]
  {
    match v
    case JObject(vm) => JObject(map k | k in m && m[k] in vm :: vm[m[k]])
    case _ => v
  }
}
