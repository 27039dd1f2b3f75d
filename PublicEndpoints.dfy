/**
  The public-endpoint detector of `api_endpoints_without_auth.py`: which operations of a
  Swagger 2.0 / OpenAPI 3 document need no authentication under the security-inheritance rule
  of the Operation Object, and the text report it prints for one URL.
  */
module EndpointsWithoutAuth {
  import opened Text
  import opened Json
  import opened Walk

  /** `method.lower()` is one of the seven verbs: method keys are matched whatever their case. */
  predicate IsVerbKey(m: string) {
    Lower(m) in Verbs
  }

  /**
    What the classification of an operation depends on besides the operation: whether any
    security is declared at all (`security_definitions or global_security`), and the
    document's top-level `security`.
    */
  datatype SecurityContext = SecurityContext(live: bool, globalSecurity: Json)

  /**
    `securityDefinitions` or else `components.securitySchemes`; looking into `components`
    raises when it is present but not an object.
    */
  function SecuritySchemes(doc: seq<(string, Json)>): Result<Json> {
    var definitions := GetOr(doc, "securityDefinitions", JNull);
    if Truthy(definitions) then Ok(definitions)
    else
      var components := GetOr(doc, "components", JObj([]));
      if components.JObj? then Ok(GetOr(components.fields, "securitySchemes", JNull))
      else Raises(AttributeError)
  }

  function ContextOf(doc: seq<(string, Json)>): Result<SecurityContext> {
    var globalSecurity := GetOr(doc, "security", JNull);
    match SecuritySchemes(doc)
    case Ok(schemes) => Ok(SecurityContext(Truthy(schemes) || Truthy(globalSecurity), globalSecurity))
    case Raises(e) => Raises(e)
  }

  /**
    The rule for one operation: everything is public when no security is declared anywhere;
    otherwise an explicit `security: []` opts out, and an operation without `security` is public
    only when there is no truthy top-level requirement for it to inherit.
    */
  predicate IsPublic(ctx: SecurityContext, o: Op) {
    !ctx.live || SecurityOf(o) == JArr([]) || (SecurityOf(o) == JNull && !Truthy(ctx.globalSecurity))
  }

  function Public(ctx: SecurityContext): Op -> bool {
    o => IsPublic(ctx, o)
  }

  /** The document's `paths` (`spec_data.get("paths", {})`). */
  function PathsOf(doc: seq<(string, Json)>): Json {
    GetOr(doc, "paths", JObj([]))
  }

  /** Every recognised operation of the document, in path-then-method document order. */
  function AllOps(specData: Json): seq<Op> {
    if specData.JObj? && PathsOf(specData.fields).JObj? then
      PathOps(PathsOf(specData.fields).fields, IsVerbKey)
    else []
  }

  /** Security is declared somewhere in the document, so the opt-out and inheritance rules apply. */
  predicate Live(specData: Json) {
    specData.JObj? && ContextOf(specData.fields).Ok? && ContextOf(specData.fields).value.live
  }

  /** The operations `detect_public_endpoints` reports, or the exception it raises. */
  function Listed(specData: Json): Result<seq<Op>> {
    if !Truthy(specData) then Ok([])
    else if !specData.JObj? then Raises(AttributeError)
    else match ContextOf(specData.fields)
      case Raises(e) => Raises(e)
      case Ok(ctx) =>
        var paths := PathsOf(specData.fields);
        if !paths.JObj? || !Shaped(paths.fields, IsVerbKey, true) then Raises(AttributeError)
        else Ok(Select(PathOps(paths.fields, IsVerbKey), Public(ctx)))
  }

  /** `detect_public_endpoints(spec_data)`: the `(METHOD, path)` pairs of the listed operations. */
  function Classify(specData: Json): Result<seq<Endpoint>> {
    match Listed(specData)
    case Ok(ops) => Ok(EndpointsOf(ops))
    case Raises(e) => Raises(e)
  }

  /**
    The outer loop of `detect_public_endpoints`: paths in document order, each Path Item handed to
    the inner loop, which extends the list of `(method.upper(), path)` pairs.
    */
  method DetectPublicEndpoints(specData: Json) returns (r: Result<seq<Endpoint>>)
    ensures r == Classify(specData)
  {
    if !Truthy(specData) {
      return Ok([]);
    }
    if !specData.JObj? {
      return Raises(AttributeError);
    }
    var doc := specData.fields;
    var paths := GetOr(doc, "paths", JObj([]));
    var securityDefinitions := GetOr(doc, "securityDefinitions", JNull);
    if !Truthy(securityDefinitions) {
      var components := GetOr(doc, "components", JObj([]));
      if !components.JObj? {
        return Raises(AttributeError);
      }
      securityDefinitions := GetOr(components.fields, "securitySchemes", JNull);
    }
    var globalSecurity := GetOr(doc, "security", JNull);
    ghost var ctx := SecurityContext(Truthy(securityDefinitions) || Truthy(globalSecurity), globalSecurity);
    assert ContextOf(doc) == Ok(ctx);
    if !paths.JObj? {
      return Raises(AttributeError);
    }
    var items := paths.fields;
    var publicEndpoints: seq<Endpoint> := [];
    var i := 0;
    while i < |items|
      invariant 0 <= i <= |items|
      invariant ItemsAreObjects(items[..i])
      invariant OpsAreObjects(PathOps(items[..i], IsVerbKey))
      invariant publicEndpoints == EndpointsOf(Select(PathOps(items[..i], IsVerbKey), Public(ctx)))
    {
      var path := items[i].0;
      var methods := items[i].1;
      if !methods.JObj? {
        ItemNotObject(items, i);
        return Raises(AttributeError);
      }
      var scanned := ScanMethods(path, methods.fields, securityDefinitions, globalSecurity, publicEndpoints);
      PathOpsStep(items, i, IsVerbKey);
      ghost var seen := PathOps(items[..i], IsVerbKey);
      ghost var here := MethodOps(path, methods.fields, IsVerbKey);
      assert methods.fields[..|methods.fields|] == methods.fields;
      if scanned.Raises? {
        ItemOpsNotObjects(items, i, IsVerbKey);
        return scanned;
      }
      publicEndpoints := scanned.value;
      OpsAreObjectsAppend(seen, here);
      ItemsAreObjectsStep(items, i);
      SelectAppend(seen, here, Public(ctx));
      EndpointsOfAppend(Select(seen, Public(ctx)), Select(here, Public(ctx)));
      i := i + 1;
    }
    assert items[..i] == items;
    return Ok(publicEndpoints);
  }

  /**
    The inner loop of `detect_public_endpoints` over one Path Item's method keys: skips keys that
    are not verbs, raises on an operation that is not an object, and appends the pair of every
    public operation to `publicEndpoints`.
    */
  method ScanMethods(path: string, methods: seq<(string, Json)>, securityDefinitions: Json, globalSecurity: Json,
                     publicEndpoints: seq<Endpoint>)
    returns (r: Result<seq<Endpoint>>)
    ensures r.Raises? <==> !OpsAreObjects(MethodOps(path, methods, IsVerbKey))
    ensures r.Raises? ==> r.exc == AttributeError
    ensures r.Ok? ==> r.value == publicEndpoints + EndpointsOf(Select(MethodOps(path, methods, IsVerbKey), Public(
                        SecurityContext(Truthy(securityDefinitions) || Truthy(globalSecurity), globalSecurity))))
  {
    ghost var ctx := SecurityContext(Truthy(securityDefinitions) || Truthy(globalSecurity), globalSecurity);
    var listed := publicEndpoints;
    ghost var seen: seq<Op> := [];
    var j := 0;
    assert methods[..0] == [];
    while j < |methods|
      invariant 0 <= j <= |methods|
      invariant seen == MethodOps(path, methods[..j], IsVerbKey)
      invariant OpsAreObjects(seen)
      invariant listed == publicEndpoints + EndpointsOf(Select(seen, Public(ctx)))
    {
      var verb := methods[j].0;
      var operation := methods[j].1;
      MethodOpsSnoc(path, methods, j, IsVerbKey);
      if Lower(verb) in Verbs {
        ghost var o := Op(verb, path, operation);
        if !operation.JObj? {
          MethodOpsPrefix(path, methods, j + 1, IsVerbKey);
          assert o in MethodOps(path, methods, IsVerbKey);
          OpNotObject(MethodOps(path, methods, IsVerbKey), o);
          return Raises(AttributeError);
        }
        var operationSecurity := GetOr(operation.fields, "security", JNull);
        SelectEndpointsSnoc(publicEndpoints, seen, o, Public(ctx));
        if Truthy(securityDefinitions) || Truthy(globalSecurity) {
          if operationSecurity == JArr([]) {
            listed := listed + [Endpoint(Upper(verb), path)];
          } else if operationSecurity == JNull && !Truthy(globalSecurity) {
            listed := listed + [Endpoint(Upper(verb), path)];
          }
        } else {
          listed := listed + [Endpoint(Upper(verb), path)];
        }
        seen := seen + [o];
      }
      j := j + 1;
    }
    assert methods[..j] == methods;
    return Ok(listed);
  }

  /** A missing or falsy document (`None`, `{}`) has no public endpoints. */
  lemma FalsyDocumentIsEmpty(specData: Json)
    requires !Truthy(specData)
    ensures Classify(specData) == Ok([])
  {
  }

  /** The listed operations are exactly the recognised operations that the rule calls public. */
  lemma ListedMembers(specData: Json, o: Op)
    requires Listed(specData).Ok? && Truthy(specData)
    ensures o in Listed(specData).value <==> o in AllOps(specData) && IsPublic(ContextOf(specData.fields).value, o)
  {
    SelectMembers(AllOps(specData), Public(ContextOf(specData.fields).value));
  }

  /**
    The report is the walk's `(METHOD, path)` pairs with some left out, the rest in document
    order, so it is never longer than the number of recognised operations.
    */
  lemma ReportIsSubsequence(specData: Json)
    requires Classify(specData).Ok?
    ensures IsSubsequence(Classify(specData).value, EndpointsOf(AllOps(specData)))
    ensures |Classify(specData).value| <= |AllOps(specData)|
  {
    if Truthy(specData) {
      SelectSubsequence(AllOps(specData), Public(ContextOf(specData.fields).value));
      EndpointsOfSubsequence(Listed(specData).value, AllOps(specData));
    }
    SubsequenceLength(Classify(specData).value, EndpointsOf(AllOps(specData)));
  }

  /**
    Only the seven verbs, in any letter case, are reported, upper-cased, each with a path key of
    the document written as it is there.
    */
  lemma ReportedAreVerbs(specData: Json, e: Endpoint)
    requires Classify(specData).Ok? && e in Classify(specData).value
    ensures e.verb in UpperVerbs
    ensures specData.JObj? && PathsOf(specData.fields).JObj? && e.path in Keys(PathsOf(specData.fields).fields)
  {
    EndpointsOfMember(Listed(specData).value, e);
    var o :| o in Listed(specData).value && e == EndpointOf(o);
    ListedMembers(specData, o);
    PathOpsMembers(PathsOf(specData.fields).fields, IsVerbKey);
    UpperOfVerb(o.verb);
  }

  /**
    Without `securityDefinitions`, `components.securitySchemes` or top-level `security`, every
    recognised operation is reported, even one that carries its own non-empty `security`.
    */
  lemma NoSecurityListsEveryOperation(specData: Json)
    requires Listed(specData).Ok? && specData.JObj? && !Live(specData)
    ensures Listed(specData).value == AllOps(specData)
  {
    if Truthy(specData) {
      var ctx := ContextOf(specData.fields).value;
      SelectAll(AllOps(specData), Public(ctx));
    }
  }

  /** Under declared security, an operation whose `security` is `[]` is public whatever the global requirement. */
  lemma EmptySecurityIsPublic(specData: Json, o: Op)
    requires Listed(specData).Ok? && Live(specData)
    requires o in AllOps(specData) && SecurityOf(o) == JArr([])
    ensures o in Listed(specData).value
  {
    LiveIsTruthy(specData);
    ListedMembers(specData, o);
  }

  /** Under declared security, an operation with a `security` other than `[]` and `None` is never public. */
  lemma NonEmptySecurityIsProtected(specData: Json, o: Op)
    requires Listed(specData).Ok? && Live(specData)
    requires SecurityOf(o) != JArr([]) && SecurityOf(o) != JNull
    ensures o !in Listed(specData).value
  {
    LiveIsTruthy(specData);
    ListedMembers(specData, o);
  }

  /**
    Under declared security, an operation without `security` inherits the top-level requirement:
    it is public exactly when top-level `security` is absent or falsy.
    */
  lemma AbsentSecurityInherits(specData: Json, o: Op)
    requires Listed(specData).Ok? && Live(specData)
    requires o in AllOps(specData) && SecurityOf(o) == JNull
    ensures o in Listed(specData).value <==> !Truthy(GetOr(specData.fields, "security", JNull))
  {
    LiveIsTruthy(specData);
    ListedMembers(specData, o);
  }

  /** Declared security needs a non-empty document. */
  lemma LiveIsTruthy(specData: Json)
    requires Live(specData)
    ensures Truthy(specData)
  {
  }

  /** The report line of one endpoint. */
  function EndpointLine(e: Endpoint): string {
    "  " + e.verb + " " + e.path
  }

  function EndpointLines(endpoints: seq<Endpoint>): (lines: seq<string>)
    ensures |lines| == |endpoints|
  {
    seq(|endpoints|, i requires 0 <= i < |endpoints| => EndpointLine(endpoints[i]))
  }

  /** The line standing in for an empty listing. */
  const NoneFound: string := "  No public endpoints found."

  /** The lines `format_output` joins: the URL alone in silent mode, a framed listing otherwise. */
  function OutputLines(url: string, endpoints: seq<Endpoint>, silent: bool, separator: string): seq<string> {
    if silent then (if endpoints != [] then [url] else [])
    else
      ["\n" + separator, "Public endpoints in " + url + ":"] +
      (if endpoints != [] then EndpointLines(endpoints) else [NoneFound]) +
      [separator]
  }

  /** `format_output(url, endpoints, silent, separator)`: collects the lines, then joins them with newlines. */
  method FormatOutput(url: string, endpoints: seq<Endpoint>, silent: bool, separator: string) returns (r: string)
    ensures r == Join(OutputLines(url, endpoints, silent, separator), "\n")
  {
    var outputLines: seq<string> := [];
    if silent {
      if endpoints != [] {
        outputLines := outputLines + [url];
      }
    } else {
      outputLines := outputLines + ["\n" + separator];
      outputLines := outputLines + ["Public endpoints in " + url + ":"];
      if endpoints != [] {
        var i := 0;
        assert EndpointLines(endpoints[..0]) == [];
        while i < |endpoints|
          invariant 0 <= i <= |endpoints|
          invariant outputLines == ["\n" + separator, "Public endpoints in " + url + ":"] + EndpointLines(endpoints[..i])
        {
          assert endpoints[..i + 1] == endpoints[..i] + [endpoints[i]];
          assert EndpointLines(endpoints[..i + 1]) == EndpointLines(endpoints[..i]) + [EndpointLine(endpoints[i])];
          outputLines := outputLines + [EndpointLine(endpoints[i])];
          i := i + 1;
        }
        assert endpoints[..i] == endpoints;
        assert outputLines == ["\n" + separator, "Public endpoints in " + url + ":"] + EndpointLines(endpoints);
      } else {
        outputLines := outputLines + [NoneFound];
      }
      outputLines := outputLines + [separator];
    }
    assert outputLines == OutputLines(url, endpoints, silent, separator);
    r := Join(outputLines, "\n");
  }

  /** In silent mode the output is exactly the URL when something was found, and empty otherwise. */
  lemma SilentOutput(url: string, endpoints: seq<Endpoint>, separator: string)
    ensures Join(OutputLines(url, endpoints, true, separator), "\n") == if endpoints != [] then url else ""
  {
  }

  /**
    In verbose mode the output opens with a blank line, the separator and the heading naming the
    URL, closes with the separator on a line of its own, and has one line per endpoint in between
    (or the single "none found" line).
    */
  lemma VerboseOutputFrame(url: string, endpoints: seq<Endpoint>, separator: string)
    ensures var lines := OutputLines(url, endpoints, false, separator);
            var out := Join(lines, "\n");
            |lines| == 3 + (if endpoints == [] then 1 else |endpoints|) &&
            StartsWith(out, "\n" + separator + "\n" + "Public endpoints in " + url + ":") &&
            EndsWith(out, "\n" + separator)
    ensures var lines := OutputLines(url, endpoints, false, separator);
            lines[2..|lines| - 1] == if endpoints == [] then [NoneFound] else EndpointLines(endpoints)
    ensures var lines := OutputLines(url, endpoints, false, separator);
            forall i :: 0 <= i < |endpoints| ==> lines[2 + i] == "  " + endpoints[i].verb + " " + endpoints[i].path
  {
    var lines := OutputLines(url, endpoints, false, separator);
    var middle := if endpoints == [] then [NoneFound] else EndpointLines(endpoints);
    assert lines == ["\n" + separator, "Public endpoints in " + url + ":"] + middle + [separator];
    assert lines[2..|lines| - 1] == middle;
    var body := lines[..|lines| - 1];
    assert lines == body + [separator];
    JoinSnoc(body, separator, "\n");
    JoinStartsWith(lines, "\n");
    assert "\n" + separator + "\n" + "Public endpoints in " + url + ":" == lines[0] + "\n" + lines[1];
  }

  /** `main` prefixes `https://` to a URL that starts with neither `http://` nor `https://`. */
  function WithScheme(url: string): (r: string)
    ensures StartsWith(r, "http://") || StartsWith(r, "https://")
    ensures r == url || r == "https://" + url
    ensures StartsWith(url, "http://") || StartsWith(url, "https://") ==> r == url
    ensures !(StartsWith(url, "http://") || StartsWith(url, "https://")) ==> r == "https://" + url
  {
    if StartsWith(url, "http://") || StartsWith(url, "https://") then url else "https://" + url
  }

  /** Adding the scheme twice adds it once: a URL that already has one is left alone. */
  lemma WithSchemeIdempotent(url: string)
    ensures WithScheme(WithScheme(url)) == WithScheme(url)
  {
  }
}
