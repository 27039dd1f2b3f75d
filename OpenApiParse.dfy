/**
  `openapi_parse.py`: writes one raw HTTP request per OpenAPI operation. Query parameters get
  their schema default or `example`; a request body is derived from the operation's declared
  content type; the request text is built by string concatenation with CRLF line ends.
  */
module OpenApiParse {
  import opened Text
  import opened Json

  const CRLF: string := "\r\n"

  const UserAgentLine := "User-Agent: Mozilla/5.0 (Windows NT 10.0; Win64; x64) AppleWebKit/537.36\r\n"
  const AcceptLine := "Accept: application/json\r\n"
  const ConnectionLine := "Connection: close\r\n"
  const JsonTypeLine := "Content-Type: application/json\r\n"

  /** The lines every request carries after the caller's headers. */
  const FixedBlock: string := UserAgentLine + AcceptLine + ConnectionLine

  // ---------------------------------------------------------------------------------------
  // create_burp_request
  // ---------------------------------------------------------------------------------------

  function RequestLine(verb: string, path: string): string {
    Upper(verb) + " " + path + " HTTP/1.1\r\n"
  }

  function HostLine(host: string): string {
    "Host: " + host + "\r\n"
  }

  function HeaderLine(header: (string, string)): string {
    header.0 + ": " + header.1 + CRLF
  }

  /** One `name: value` line per header, in the dict's order. */
  function HeaderBlock(headers: seq<(string, string)>): string {
    if headers == [] then ""
    else HeaderBlock(headers[..|headers| - 1]) + HeaderLine(headers[|headers| - 1])
  }

  /** Only POST and PUT with a non-empty body send it. */
  predicate SendsBody(verb: string, body: string) {
    (Upper(verb) == "POST" || Upper(verb) == "PUT") && body != ""
  }

  /** The request line, the Host line and the caller's headers. */
  function Head(verb: string, path: string, host: string, headers: seq<(string, string)>): string {
    RequestLine(verb, path) + HostLine(host) + HeaderBlock(headers)
  }

  function ContentLengthLine(n: nat): string {
    "Content-Length: " + NatToString(n) + CRLF
  }

  /** What follows the fixed lines: the JSON body headers and the body, or just the blank line. */
  function Tail(verb: string, body: string): string {
    if SendsBody(verb, body) then JsonTypeLine + ContentLengthLine(|body|) + CRLF + body
    else CRLF
  }

  /** The request `create_burp_request` returns; a missing body is "". */
  function RawRequest(verb: string, path: string, host: string, headers: seq<(string, string)>, body: string): string {
    Head(verb, path, host, headers) + FixedBlock + Tail(verb, body)
  }

  /**
    `create_burp_request`, growing `request` line by line. Its `params` argument is accepted
    and never read, so the result does not depend on it.
    */
  method CreateBurpRequest(verb: string, path: string, host: string, params: seq<(Json, Json)>,
                           headers: seq<(string, string)>, body: string) returns (request: string)
    ensures request == RawRequest(verb, path, host, headers, body)
  {
    request := RequestLine(verb, path);
    request := request + HostLine(host);
    var i := 0;
    while i < |headers|
      invariant 0 <= i <= |headers|
      invariant request == RequestLine(verb, path) + HostLine(host) + HeaderBlock(headers[..i])
    {
      assert headers[..i + 1][..i] == headers[..i];
      request := request + HeaderLine(headers[i]);
      i := i + 1;
    }
    assert headers[..i] == headers;
    ghost var head := request;
    request := request + UserAgentLine;
    request := request + AcceptLine;
    request := request + ConnectionLine;
    assert request == head + FixedBlock;
    if (Upper(verb) == "POST" || Upper(verb) == "PUT") && body != "" {
      request := request + JsonTypeLine;
      request := request + ContentLengthLine(|body|);
      request := request + CRLF;
      request := request + body;
      assert request == head + FixedBlock + (JsonTypeLine + ContentLengthLine(|body|) + CRLF + body);
    } else {
      request := request + CRLF;
    }
  }

  /** The request opens with the request line and the Host line, then the caller's headers in order and the fixed lines. */
  lemma RequestOpens(verb: string, path: string, host: string, headers: seq<(string, string)>, body: string)
    ensures StartsWith(RawRequest(verb, path, host, headers, body),
                       RequestLine(verb, path) + HostLine(host) + HeaderBlock(headers) + FixedBlock)
  {
    var pre := Head(verb, path, host, headers) + FixedBlock;
    var r := RawRequest(verb, path, host, headers, body);
    assert r == pre + Tail(verb, body);
    assert r[..|pre|] == pre;
  }

  /** Without a body to send, the body is dropped and the header section closes with a blank line. */
  lemma BodilessRequestEnds(verb: string, path: string, host: string, headers: seq<(string, string)>, body: string)
    requires !SendsBody(verb, body)
    ensures EndsWith(RawRequest(verb, path, host, headers, body), ConnectionLine + CRLF)
    ensures RawRequest(verb, path, host, headers, body) == Head(verb, path, host, headers) + FixedBlock + CRLF
  {
    var r := RawRequest(verb, path, host, headers, body);
    var t := ConnectionLine + CRLF;
    var pre := Head(verb, path, host, headers) + UserAgentLine + AcceptLine;
    assert r == pre + ConnectionLine + CRLF;
    assert r == pre + t;
    assert r[|r| - |t|..] == t;
  }

  /**
    A POST or PUT with a body ends with the JSON Content-Type line, a Content-Length line giving
    the body's length, the blank line and the body itself.
    */
  lemma BodyRequestEnds(verb: string, path: string, host: string, headers: seq<(string, string)>, body: string)
    requires SendsBody(verb, body)
    ensures EndsWith(RawRequest(verb, path, host, headers, body), JsonTypeLine + ContentLengthLine(|body|) + CRLF + body)
  {
    var r := RawRequest(verb, path, host, headers, body);
    var pre := Head(verb, path, host, headers) + FixedBlock;
    var t := JsonTypeLine + ContentLengthLine(|body|) + CRLF + body;
    assert r == pre + t;
    assert r[|r| - |t|..] == t;
  }

  // ---------------------------------------------------------------------------------------
  // Query defaults (generate_burp_requests, lines 47-53)
  // ---------------------------------------------------------------------------------------

  /** The value of a query parameter: the schema's default when it is given and not None, else `example`. */
  function QueryValue(schema: Json): (r: Result<Json>)
    ensures r.Raises? <==> !schema.JObj?
    ensures schema.JObj? && GetOr(schema.fields, "default", JNull) != JNull ==> r == Ok(GetOr(schema.fields, "default", JNull))
    ensures schema.JObj? && GetOr(schema.fields, "default", JNull) == JNull ==> r == Ok(JStr("example"))
  {
    if !schema.JObj? then Raises(AttributeError)
    else if GetOr(schema.fields, "default", JNull) != JNull then Ok(GetOr(schema.fields, "default", JStr("")))
    else Ok(JStr("example"))
  }

  /** A JSON value Python can use as a dict key. */
  predicate Hashable(x: Json) {
    !x.JArr? && !x.JObj?
  }

  /** `query_params[name] = value` for one parameter; other locations leave the dict as it is. */
  function QueryStep(query: seq<(Json, Json)>, param: Json): Result<seq<(Json, Json)>> {
    match Subscript(param, "in")
    case Raises(e) => Raises(e)
    case Ok(location) =>
      if location != JStr("query") then Ok(query)
      else
        var schema := GetOr(param.fields, "schema", JObj([]));
        match Subscript(param, "name")
        case Raises(e) => Raises(e)
        case Ok(name) =>
          match QueryValue(schema)
          case Raises(e) => Raises(e)
          case Ok(v) => if !Hashable(name) then Raises(TypeError) else Ok(Put(query, name, v))
  }

  /** The query parameters of an operation, from `details.get("parameters", [])`. */
  function QueryParams(params: seq<Json>): Result<seq<(Json, Json)>> {
    if params == [] then Ok([])
    else match QueryParams(params[..|params| - 1])
      case Raises(e) => Raises(e)
      case Ok(q) => QueryStep(q, params[|params| - 1])
  }

  /** A parameter declared in the query, with a usable name and schema. */
  predicate IsQueryParam(p: Json) {
    p.JObj? && Lookup(p.fields, "in") == Some(JStr("query"))
  }

  /** The query dict never holds a name twice. */
  lemma {:induction false} QueryParamsDistinct(params: seq<Json>, q: seq<(Json, Json)>)
    requires QueryParams(params) == Ok(q)
    ensures DistinctKeys(q)
  {
    if params != [] {
      var prev := QueryParams(params[..|params| - 1]);
      assert prev.Ok? && QueryStep(prev.value, params[|params| - 1]) == Ok(q);
      QueryParamsDistinct(params[..|params| - 1], prev.value);
      QueryStepKeys(prev.value, params[|params| - 1], q);
    }
  }

  /** Every query parameter has a name, and that name is a key of the query dict. */
  lemma {:induction false} QueryParamsNamesAreKeys(params: seq<Json>, q: seq<(Json, Json)>)
    requires QueryParams(params) == Ok(q)
    ensures forall i :: 0 <= i < |params| && IsQueryParam(params[i]) ==>
              Lookup(params[i].fields, "name").Some? && Lookup(params[i].fields, "name").value in Keys(q)
  {
    if params != [] {
      var init := params[..|params| - 1];
      var prev := QueryParams(init);
      assert prev.Ok? && QueryStep(prev.value, params[|params| - 1]) == Ok(q);
      QueryParamsNamesAreKeys(init, prev.value);
      QueryStepKeys(prev.value, params[|params| - 1], q);
      forall i | 0 <= i < |params| && IsQueryParam(params[i])
        ensures Lookup(params[i].fields, "name").Some? && Lookup(params[i].fields, "name").value in Keys(q)
      {
        if i < |init| {
          assert init[i] == params[i];
        }
      }
    }
  }

  /** Every key of the query dict is the name of some query parameter. */
  lemma {:induction false} QueryParamsKeysAreNames(params: seq<Json>, q: seq<(Json, Json)>)
    requires QueryParams(params) == Ok(q)
    ensures forall k :: k in Keys(q) ==>
              exists i :: 0 <= i < |params| && IsQueryParam(params[i]) && Lookup(params[i].fields, "name") == Some(k)
  {
    if params != [] {
      var init := params[..|params| - 1];
      var p := params[|params| - 1];
      var prev := QueryParams(init);
      assert prev.Ok? && QueryStep(prev.value, p) == Ok(q);
      QueryParamsKeysAreNames(init, prev.value);
      QueryStepKeys(prev.value, p, q);
      forall k | k in Keys(q)
        ensures exists i :: 0 <= i < |params| && IsQueryParam(params[i]) && Lookup(params[i].fields, "name") == Some(k)
      {
        if k in Keys(prev.value) {
          var i :| 0 <= i < |init| && IsQueryParam(init[i]) && Lookup(init[i].fields, "name") == Some(k);
          assert params[i] == init[i];
        } else {
          assert params[|params| - 1] == p;
        }
      }
    }
  }

  /** One step adds the parameter's name as a key when it is a query parameter, and no other key. */
  lemma QueryStepKeys(prev: seq<(Json, Json)>, p: Json, next: seq<(Json, Json)>)
    requires QueryStep(prev, p) == Ok(next)
    ensures DistinctKeys(prev) ==> DistinctKeys(next)
    ensures IsQueryParam(p) ==> Lookup(p.fields, "name").Some? && Lookup(p.fields, "name").value in Keys(next)
    ensures forall k :: k in Keys(prev) ==> k in Keys(next)
    ensures forall k :: k in Keys(next) ==> k in Keys(prev) || (IsQueryParam(p) && Lookup(p.fields, "name") == Some(k))
  {
    if Subscript(p, "in").value == JStr("query") {
      var name := Subscript(p, "name").value;
      var v := QueryValue(GetOr(p.fields, "schema", JObj([]))).value;
      PutKeys(prev, name, v);
      if DistinctKeys(prev) {
        PutDistinct(prev, name, v);
      }
    }
  }

  /** A query parameter that is the last one of its name gives its `QueryValue` to the dict. */
  lemma {:induction false} QueryParamsValue(params: seq<Json>, q: seq<(Json, Json)>, i: int)
    requires QueryParams(params) == Ok(q)
    requires 0 <= i < |params| && IsQueryParam(params[i])
    requires forall j :: i < j < |params| && IsQueryParam(params[j]) ==>
               Lookup(params[j].fields, "name") != Lookup(params[i].fields, "name")
    ensures Lookup(params[i].fields, "name").Some?
    ensures QueryValue(GetOr(params[i].fields, "schema", JObj([]))).Ok? &&
            Lookup(q, Lookup(params[i].fields, "name").value) ==
              Some(QueryValue(GetOr(params[i].fields, "schema", JObj([]))).value)
  {
    var init := params[..|params| - 1];
    var p := params[|params| - 1];
    var prev := QueryParams(init);
    assert prev.Ok?;
    if i < |params| - 1 {
      assert init[i] == params[i];
      forall j | i < j < |init| && IsQueryParam(init[j])
        ensures Lookup(init[j].fields, "name") != Lookup(init[i].fields, "name")
      {
        assert init[j] == params[j];
      }
      QueryParamsValue(init, prev.value, i);
      var k := Lookup(params[i].fields, "name").value;
      if Subscript(p, "in").value == JStr("query") {
        var name := Subscript(p, "name").value;
        PutLookup(prev.value, name, QueryValue(GetOr(p.fields, "schema", JObj([]))).value, k);
      }
    } else {
      var name := Subscript(p, "name").value;
      PutLookup(prev.value, name, QueryValue(GetOr(p.fields, "schema", JObj([]))).value, name);
    }
  }

  lemma {:induction false} QueryParamsStops(params: seq<Json>, i: int)
    requires 0 <= i <= |params| && QueryParams(params[..i]).Raises?
    ensures QueryParams(params) == QueryParams(params[..i])
    decreases |params|
  {
    if i < |params| {
      assert params[..|params| - 1][..i] == params[..i];
      QueryParamsStops(params[..|params| - 1], i);
    } else {
      assert params[..i] == params;
    }
  }

  /** The loop that fills `query_params`. */
  method CollectQueryParams(params: seq<Json>) returns (r: Result<seq<(Json, Json)>>)
    ensures r == QueryParams(params)
  {
    var queryParams: seq<(Json, Json)> := [];
    var i := 0;
    while i < |params|
      invariant 0 <= i <= |params|
      invariant QueryParams(params[..i]) == Ok(queryParams)
    {
      assert params[..i + 1][..i] == params[..i];
      var next := QueryStep(queryParams, params[i]);
      if next.Raises? {
        QueryParamsStops(params, i + 1);
        return next;
      }
      queryParams := next.value;
      i := i + 1;
    }
    assert params[..i] == params;
    return Ok(queryParams);
  }

  /** The path with the encoded query string when there are query parameters. */
  function FullPath(path: string, query: seq<(Json, Json)>, lib: PyLib): string {
    if query != [] then path + "?" + lib.urlencode(query) else path
  }

  // ---------------------------------------------------------------------------------------
  // Request body (generate_burp_requests, lines 61-77)
  // ---------------------------------------------------------------------------------------

  /** The body an operation sends, and the Content-Type it writes into the shared headers. */
  datatype BodyPlan = BodyPlan(body: Option<string>, contentType: Option<string>)

  const MultipartBody := "--boundary\nContent-Disposition: form-data; name=\"example\"\n\nexample\n--boundary--"

  /** How `json.dumps` writes a dict key: strings as they are, other scalars as JSON literals. */
  function JsonKey(k: Json, lib: PyLib): string
    requires Hashable(k)
  {
    match k
    case JStr(s) => s
    case JNull => "null"
    case JBool(b) => if b then "true" else "false"
    case JInt(i) => IntToString(i)
    case JFloat(_) => lib.repr(k)
  }

  /** `{prop: "example" for prop in properties}`, keyed as `json.dumps` writes it. */
  function ExampleFields(props: seq<Json>, lib: PyLib): Result<seq<(string, Json)>> {
    if props == [] then Ok([])
    else match ExampleFields(props[..|props| - 1], lib)
      case Raises(e) => Raises(e)
      case Ok(fs) =>
        var p := props[|props| - 1];
        if !Hashable(p) then Raises(TypeError) else Ok(Put(fs, JsonKey(p, lib), JStr("example")))
  }

  /** The JSON body for a schema reference: every property of the named schema set to `example`. */
  function RefBody(schemaRef: Json, openapiData: Json, lib: PyLib): Result<string> {
    if !schemaRef.JStr? then Raises(AttributeError)
    else match Subscript(openapiData, "components")
      case Raises(e) => Raises(e)
      case Ok(components) =>
        match Subscript(components, "schemas")
        case Raises(e) => Raises(e)
        case Ok(schemas) =>
          if !schemas.JObj? then Raises(AttributeError)
          else
            var schema := GetOr(schemas.fields, LastSegment(schemaRef.s, '/'), JObj([]));
            if !schema.JObj? then Raises(AttributeError)
            else match Iterate(GetOr(schema.fields, "properties", JObj([])))
              case Raises(e) => Raises(e)
              case Ok(props) =>
                match ExampleFields(props, lib)
                case Raises(e) => Raises(e)
                case Ok(fs) => Ok(lib.dumps(JObj(fs)))
  }

  /** The body for `application/json` content. */
  function JsonBody(media: Json, openapiData: Json, lib: PyLib): Result<string> {
    if !media.JObj? then Raises(AttributeError)
    else
      var schema := GetOr(media.fields, "schema", JObj([]));
      if !schema.JObj? then Raises(AttributeError)
      else
        var schemaRef := GetOr(schema.fields, "$ref", JNull);
        if Truthy(schemaRef) then RefBody(schemaRef, openapiData, lib)
        else Ok(lib.dumps(JObj([("example", JStr("data"))])))
  }

  /** The body of an operation, chosen by the first content type it declares among the three handled. */
  function PlanBody(details: seq<(string, Json)>, openapiData: Json, lib: PyLib): Result<BodyPlan> {
    match Lookup(details, "requestBody")
    case None => Ok(BodyPlan(None, None))
    case Some(requestBody) =>
      if !requestBody.JObj? then Raises(AttributeError)
      else
        var content := GetOr(requestBody.fields, "content", JObj([]));
        match Contains(content, "application/json")
        case Raises(e) => Raises(e)
        case Ok(hasJson) =>
          if hasJson then
            match Subscript(content, "application/json")
            case Raises(e) => Raises(e)
            case Ok(media) =>
              match JsonBody(media, openapiData, lib)
              case Raises(e) => Raises(e)
              case Ok(b) => Ok(BodyPlan(Some(b), None))
          else if Contains(content, "multipart/form-data").value then
            Ok(BodyPlan(Some(MultipartBody), Some("multipart/form-data; boundary=boundary")))
          else if Contains(content, "application/x-www-form-urlencoded").value then
            Ok(BodyPlan(Some(lib.urlencode([(JStr("example"), JStr("data"))])), Some("application/x-www-form-urlencoded")))
          else Ok(BodyPlan(None, None))
  }

  /** With distinct property names, each one maps to `example`, in declaration order. */
  lemma {:induction false} ExampleFieldsOfNames(names: seq<string>, lib: PyLib)
    requires forall i, j :: 0 <= i < j < |names| ==> names[i] != names[j]
    ensures ExampleFields(seq(|names|, i requires 0 <= i < |names| => JStr(names[i])), lib) ==
              Ok(seq(|names|, i requires 0 <= i < |names| => (names[i], JStr("example"))))
  {
    var props := seq(|names|, i requires 0 <= i < |names| => JStr(names[i]));
    if names != [] {
      var init := names[..|names| - 1];
      var last := names[|names| - 1];
      NamesSnoc(names);
      ExampleFieldsOfNames(init, lib);
      var fs := seq(|init|, i requires 0 <= i < |init| => (init[i], JStr("example")));
      assert last !in Keys(fs) by {
        forall i | 0 <= i < |fs| ensures Keys(fs)[i] != last {
          assert Keys(fs)[i] == names[i];
        }
      }
      PutAppends(fs, last, JStr("example"));
      assert JsonKey(props[|props| - 1], lib) == last;
      assert ExampleFields(props, lib) == Ok(Put(fs, last, JStr("example")));
    } else {
      assert props == [];
      assert ExampleFields(props, lib) == Ok([]);
      assert seq(|names|, i requires 0 <= i < |names| => (names[i], JStr("example"))) == [];
    }
  }

  /** Dropping the last name drops the last element of both comprehensions. */
  lemma NamesSnoc(names: seq<string>)
    requires names != []
    ensures var init := names[..|names| - 1];
            seq(|names|, i requires 0 <= i < |names| => JStr(names[i]))[..|names| - 1] ==
              seq(|init|, i requires 0 <= i < |init| => JStr(init[i])) &&
            seq(|names|, i requires 0 <= i < |names| => JStr(names[i]))[|names| - 1] == JStr(names[|names| - 1]) &&
            seq(|init|, i requires 0 <= i < |init| => (init[i], JStr("example"))) + [(names[|names| - 1], JStr("example"))] ==
              seq(|names|, i requires 0 <= i < |names| => (names[i], JStr("example")))
  {
  }

  /** A media dict whose schema dict holds a non-empty string `$ref` gets the body of that reference. */
  lemma RefMedia(media: Json, ref: string, openapiData: Json, lib: PyLib)
    requires media.JObj? && GetOr(media.fields, "schema", JObj([])).JObj?
    requires Lookup(GetOr(media.fields, "schema", JObj([])).fields, "$ref") == Some(JStr(ref)) && ref != ""
    ensures JsonBody(media, openapiData, lib) == RefBody(JStr(ref), openapiData, lib)
  {
  }

  /**
    A `$ref` body: when `components.schemas` holds, under the reference's last `/` segment, a
    schema whose `properties` is a dict with distinct names, the body dumps each name set to
    `example`, in declaration order.
    */
  lemma JsonBodyOfRef(media: Json, ref: string, openapiData: Json, components: Json, schemas: Json, schema: Json,
                      props: seq<(string, Json)>, lib: PyLib)
    requires media.JObj? && GetOr(media.fields, "schema", JObj([])).JObj?
    requires Lookup(GetOr(media.fields, "schema", JObj([])).fields, "$ref") == Some(JStr(ref)) && ref != ""
    requires openapiData.JObj? && Lookup(openapiData.fields, "components") == Some(components)
    requires components.JObj? && Lookup(components.fields, "schemas") == Some(schemas) && schemas.JObj?
    requires Lookup(schemas.fields, LastSegment(ref, '/')) == Some(schema) && schema.JObj?
    requires Lookup(schema.fields, "properties") == Some(JObj(props)) && DistinctKeys(props)
    ensures JsonBody(media, openapiData, lib) ==
            Ok(lib.dumps(JObj(seq(|props|, i requires 0 <= i < |props| => (props[i].0, JStr("example"))))))
  {
    RefMedia(media, ref, openapiData, lib);
    assert Subscript(openapiData, "components") == Ok(components);
    assert Subscript(components, "schemas") == Ok(schemas);
    ExamplePropertyFields(props, lib);
  }

  /** A `$ref` whose last segment names no registered schema gives the empty object `{}`. */
  lemma JsonBodyOfUnknownRef(media: Json, ref: string, openapiData: Json, components: Json, schemas: Json,
                             lib: PyLib)
    requires media.JObj? && GetOr(media.fields, "schema", JObj([])).JObj?
    requires Lookup(GetOr(media.fields, "schema", JObj([])).fields, "$ref") == Some(JStr(ref)) && ref != ""
    requires openapiData.JObj? && Lookup(openapiData.fields, "components") == Some(components)
    requires components.JObj? && Lookup(components.fields, "schemas") == Some(schemas) && schemas.JObj?
    requires LastSegment(ref, '/') !in Keys(schemas.fields)
    ensures JsonBody(media, openapiData, lib) == Ok(lib.dumps(JObj([])))
  {
    RefMedia(media, ref, openapiData, lib);
    assert Subscript(openapiData, "components") == Ok(components);
    assert Subscript(components, "schemas") == Ok(schemas);
    assert Iterate(JObj([])) == Ok([]);
  }

  /** A `$ref` body needs `components.schemas`: a document dict without them raises KeyError, any other document TypeError. */
  lemma JsonBodyWithoutRegistry(media: Json, ref: string, openapiData: Json, lib: PyLib)
    requires media.JObj? && GetOr(media.fields, "schema", JObj([])).JObj?
    requires Lookup(GetOr(media.fields, "schema", JObj([])).fields, "$ref") == Some(JStr(ref)) && ref != ""
    ensures openapiData.JObj? && "components" !in Keys(openapiData.fields) ==>
              JsonBody(media, openapiData, lib) == Raises(KeyError)
    ensures !openapiData.JObj? ==> JsonBody(media, openapiData, lib) == Raises(TypeError)
    ensures openapiData.JObj? && "components" in Keys(openapiData.fields) &&
            GetOr(openapiData.fields, "components", JNull).JObj? &&
            "schemas" !in Keys(GetOr(openapiData.fields, "components", JNull).fields) ==>
              JsonBody(media, openapiData, lib) == Raises(KeyError)
  {
    RefMedia(media, ref, openapiData, lib);
  }

  /** A media dict whose schema dict has a missing or falsy `$ref` gets the fixed body `{"example": "data"}`. */
  lemma JsonBodyInline(media: Json, openapiData: Json, lib: PyLib)
    ensures media.JObj? && GetOr(media.fields, "schema", JObj([])).JObj? &&
            !Truthy(GetOr(GetOr(media.fields, "schema", JObj([])).fields, "$ref", JNull)) ==>
              JsonBody(media, openapiData, lib) == Ok(lib.dumps(JObj([("example", JStr("data"))])))
    ensures !media.JObj? || !GetOr(media.fields, "schema", JObj([])).JObj? ==>
              JsonBody(media, openapiData, lib) == Raises(AttributeError)
  {
  }

  /** The properties of a schema with distinct names each map to `example`, in order. */
  lemma ExamplePropertyFields(props: seq<(string, Json)>, lib: PyLib)
    requires DistinctKeys(props)
    ensures Iterate(JObj(props)).Ok?
    ensures ExampleFields(Iterate(JObj(props)).value, lib) ==
            Ok(seq(|props|, i requires 0 <= i < |props| => (props[i].0, JStr("example"))))
  {
    var names := Keys(props);
    assert forall i, j :: 0 <= i < j < |names| ==> names[i] != names[j];
    ExampleFieldsOfNames(names, lib);
    assert Iterate(JObj(props)).value == seq(|names|, i requires 0 <= i < |names| => JStr(names[i]));
    assert seq(|names|, i requires 0 <= i < |names| => (names[i], JStr("example"))) ==
           seq(|props|, i requires 0 <= i < |props| => (props[i].0, JStr("example")));
  }

  /** The body plan: nothing without `requestBody`, and a Content-Type only for the two form encodings. */
  lemma PlanBodyCases(details: seq<(string, Json)>, openapiData: Json, lib: PyLib)
    ensures "requestBody" !in Keys(details) ==> PlanBody(details, openapiData, lib) == Ok(BodyPlan(None, None))
    ensures var r := PlanBody(details, openapiData, lib);
            r.Ok? && r.value.contentType.Some? ==>
              r.value.body.Some? &&
              ((r.value.contentType.value == "multipart/form-data; boundary=boundary" && r.value.body.value == MultipartBody) ||
               (r.value.contentType.value == "application/x-www-form-urlencoded" &&
                r.value.body.value == lib.urlencode([(JStr("example"), JStr("data"))])))
  {
    var r := PlanBody(details, openapiData, lib);
    match Lookup(details, "requestBody")
    case None =>
    case Some(requestBody) =>
      if requestBody.JObj? {
        var content := GetOr(requestBody.fields, "content", JObj([]));
        if Contains(content, "application/json") == Ok(true) {
          assert r.Ok? ==> r.value.contentType.None?;
        }
      }
  }

  /** A `requestBody` that is not a dict fails on `.get`. */
  lemma PlanBodyNotDict(details: seq<(string, Json)>, openapiData: Json, lib: PyLib)
    ensures Lookup(details, "requestBody").Some? && !Lookup(details, "requestBody").value.JObj? ==>
              PlanBody(details, openapiData, lib) == Raises(AttributeError)
  {
  }

  /**
    With a `content` dict, the first of `application/json`, `multipart/form-data` and
    `application/x-www-form-urlencoded` it holds decides the body, whatever else it holds;
    none of them means no body.
    */
  lemma PlanBodyOfContent(details: seq<(string, Json)>, requestBody: seq<(string, Json)>, content: seq<(string, Json)>,
                          openapiData: Json, lib: PyLib)
    requires Lookup(details, "requestBody") == Some(JObj(requestBody))
    requires GetOr(requestBody, "content", JObj([])) == JObj(content)
    ensures "application/json" in Keys(content) ==>
              var b := JsonBody(Lookup(content, "application/json").value, openapiData, lib);
              PlanBody(details, openapiData, lib) == if b.Ok? then Ok(BodyPlan(Some(b.value), None)) else Raises(b.exc)
    ensures "application/json" !in Keys(content) && "multipart/form-data" in Keys(content) ==>
              PlanBody(details, openapiData, lib) ==
                Ok(BodyPlan(Some(MultipartBody), Some("multipart/form-data; boundary=boundary")))
    ensures "application/json" !in Keys(content) && "multipart/form-data" !in Keys(content) &&
            "application/x-www-form-urlencoded" in Keys(content) ==>
              PlanBody(details, openapiData, lib) ==
                Ok(BodyPlan(Some(lib.urlencode([(JStr("example"), JStr("data"))])), Some("application/x-www-form-urlencoded")))
    ensures "application/json" !in Keys(content) && "multipart/form-data" !in Keys(content) &&
            "application/x-www-form-urlencoded" !in Keys(content) ==>
              PlanBody(details, openapiData, lib) == Ok(BodyPlan(None, None))
  {
  }

  // ---------------------------------------------------------------------------------------
  // One operation (generate_burp_requests, lines 43-80)
  // ---------------------------------------------------------------------------------------

  /** What one operation produces: the file it writes, the request, and the shared headers after it. */
  datatype Written = Written(fileName: string, request: string, headers: seq<(string, string)>)

  /** `burp_requests/<method>_<operationId>.txt` */
  function FileName(verb: string, details: seq<(string, Json)>, lib: PyLib): string {
    "burp_requests/" + verb + "_" + Str(GetOr(details, "operationId", JStr("unknown_operation")), lib) + ".txt"
  }

  /**
    One operation: `headers` is the dict shared by all operations, which a form body's
    Content-Type is written into and which the next operation sees.
    */
  function Operation(path: string, verb: string, details: Json, host: string, headers: seq<(string, string)>,
                     openapiData: Json, lib: PyLib): Result<Written>
  {
    if !details.JObj? then Raises(AttributeError)
    else
      var fileName := FileName(verb, details.fields, lib);
      match Iterate(GetOr(details.fields, "parameters", JArr([])))
      case Raises(e) => Raises(e)
      case Ok(params) =>
        match QueryParams(params)
        case Raises(e) => Raises(e)
        case Ok(query) =>
          match PlanBody(details.fields, openapiData, lib)
          case Raises(e) => Raises(e)
          case Ok(plan) => Ok(Assemble(fileName, verb, path, query, host, headers, plan, lib))
  }

  /** The last step of one operation: a form body's Content-Type goes into the shared headers, then the request is built. */
  function Assemble(fileName: string, verb: string, path: string, query: seq<(Json, Json)>, host: string,
                    headers: seq<(string, string)>, plan: BodyPlan, lib: PyLib): Written
  {
    var headers' := if plan.contentType.Some? then Put(headers, "Content-Type", plan.contentType.value) else headers;
    var body := if plan.body.Some? then plan.body.value else "";
    Written(fileName, RawRequest(verb, FullPath(path, query, lib), host, headers', body), headers')
  }

  /**
    An operation without query parameters or a body: the file name uses the operation id or
    `unknown_operation`, and the request is for the bare path with no body.
    */
  lemma PlainOperation(path: string, verb: string, fields: seq<(string, Json)>, host: string,
                       headers: seq<(string, string)>, openapiData: Json, lib: PyLib)
    requires "parameters" !in Keys(fields) && "requestBody" !in Keys(fields)
    ensures var r := Operation(path, verb, JObj(fields), host, headers, openapiData, lib);
            r.Ok? && r.value.headers == headers &&
            r.value.request == Head(verb, path, host, headers) + FixedBlock + CRLF &&
            ("operationId" !in Keys(fields) ==> r.value.fileName == "burp_requests/" + verb + "_" + "unknown_operation" + ".txt")
  {
    NoQueryNoBody(fields, openapiData, lib);
    var fileName := FileName(verb, fields, lib);
    assert Operation(path, verb, JObj(fields), host, headers, openapiData, lib) ==
           Ok(Assemble(fileName, verb, path, [], host, headers, BodyPlan(None, None), lib));
    assert Tail(verb, "") == CRLF;
    assert Assemble(fileName, verb, path, [], host, headers, BodyPlan(None, None), lib) ==
           Written(fileName, RawRequest(verb, path, host, headers, ""), headers);
  }

  /** Without `parameters` and `requestBody` there is no query and no body plan. */
  lemma NoQueryNoBody(fields: seq<(string, Json)>, openapiData: Json, lib: PyLib)
    requires "parameters" !in Keys(fields) && "requestBody" !in Keys(fields)
    ensures Iterate(GetOr(fields, "parameters", JArr([]))) == Ok([])
    ensures QueryParams([]) == Ok([])
    ensures PlanBody(fields, openapiData, lib) == Ok(BodyPlan(None, None))
  {
    assert GetOr(fields, "parameters", JArr([])) == JArr([]);
    assert Lookup(fields, "requestBody") == None;
  }

  /** A POST or PUT whose operation has a body sends it with a matching Content-Length. */
  lemma OperationSendsBody(path: string, verb: string, fields: seq<(string, Json)>, host: string,
                           headers: seq<(string, string)>, openapiData: Json, lib: PyLib)
    requires Upper(verb) == "POST" || Upper(verb) == "PUT"
    ensures var r := Operation(path, verb, JObj(fields), host, headers, openapiData, lib);
            var plan := PlanBody(fields, openapiData, lib);
            r.Ok? && plan.Ok? && plan.value.body.Some? && plan.value.body.value != "" ==>
              var body := plan.value.body.value;
              EndsWith(r.value.request, JsonTypeLine + ContentLengthLine(|body|) + CRLF + body)
  {
    var r := Operation(path, verb, JObj(fields), host, headers, openapiData, lib);
    var plan := PlanBody(fields, openapiData, lib);
    if r.Ok? && plan.Ok? && plan.value.body.Some? && plan.value.body.value != "" {
      var params := Iterate(GetOr(fields, "parameters", JArr([]))).value;
      var query := QueryParams(params).value;
      var headers' := if plan.value.contentType.Some? then Put(headers, "Content-Type", plan.value.contentType.value) else headers;
      assert r.value.request == RawRequest(verb, FullPath(path, query, lib), host, headers', plan.value.body.value);
      BodyRequestEnds(verb, FullPath(path, query, lib), host, headers', plan.value.body.value);
    }
  }
}
