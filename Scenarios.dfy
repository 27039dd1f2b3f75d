/**
  Concrete documents on which the two public-endpoint detectors are compared.
  */
module PublicEndpointScenarios {
  import opened Text
  import opened Json
  import opened Walk
  import EndpointsWithoutAuth
  import DetectPublic

  /** A document with one operation and no security anywhere: `{"paths": {"/a": {"get": {}}}}`. */
  const OpenDoc: Json := JObj([("paths", JObj([("/a", JObj([("get", JObj([]))]))]))])

  /** The same operation under declared `securityDefinitions` and with no `security` of its own. */
  const DefinitionsDoc: Json :=
    JObj([("securityDefinitions", JObj([("key", JObj([]))])),
          ("paths", JObj([("/a", JObj([("get", JObj([]))]))]))])

  /** The operation of both documents, as the walk meets it. */
  const GetA: Op := Op("get", "/a", JObj([]))

  /** The walk of a document with one path holding one operation. */
  lemma SingleWalk(path: string, verb: string, operation: Json, recognised: string -> bool)
    requires recognised(verb) && operation.JObj?
    ensures PathOps([(path, JObj([(verb, operation)]))], recognised) == [Op(verb, path, operation)]
    ensures Shaped([(path, JObj([(verb, operation)]))], recognised, true)
  {
    var methods := [(verb, operation)];
    var paths := [(path, JObj(methods))];
    assert methods[..0] == [];
    assert paths[..0] == [];
    assert MethodOps(path, methods, recognised) == [Op(verb, path, operation)];
    assert PathOps(paths, recognised) == [Op(verb, path, operation)];
    assert [Op(verb, path, operation)][..0] == [];
  }

  /** Selecting from one operation keeps it exactly when `keep` accepts it. */
  lemma SelectOne(o: Op, keep: Op -> bool)
    ensures Select([o], keep) == if keep(o) then [o] else []
  {
    assert [o][..0] == [];
  }

  lemma GetIsVerbKey()
    ensures EndpointsWithoutAuth.IsVerbKey("get") && Upper("get") == "GET"
    ensures EndpointsOf([GetA]) == [Endpoint("GET", "/a")]
  {
    assert Lower("get") == "get";
    assert Upper("get") == "GET";
  }

  /** With no security anywhere, the inheritance-rule detector reports `GET /a`. */
  lemma OpenDocWithoutAuth()
    ensures EndpointsWithoutAuth.Classify(OpenDoc) == Ok([Endpoint("GET", "/a")])
  {
    GetIsVerbKey();
    var ctx := EndpointsWithoutAuth.SecurityContext(false, JNull);
    SingleWalk("/a", "get", JObj([]), EndpointsWithoutAuth.IsVerbKey);
    assert EndpointsWithoutAuth.AllOps(OpenDoc) == [GetA];
    assert EndpointsWithoutAuth.ContextOf(OpenDoc.fields) == Ok(ctx);
    SelectOne(GetA, EndpointsWithoutAuth.Public(ctx));
  }

  /** With no security anywhere, the `securityDefinitions`-only detector reports `GET /a` too. */
  lemma OpenDocDetect()
    ensures DetectPublic.Classify(OpenDoc) == Ok([Endpoint("GET", "/a")])
  {
    GetIsVerbKey();
    SingleWalk("/a", "get", JObj([]), DetectPublic.IsExactVerb);
    assert DetectPublic.AllOps(OpenDoc) == [GetA];
    SelectOne(GetA, DetectPublic.Public(false));
  }

  /** The three keys the inheritance-rule detector reads from `DefinitionsDoc`. */
  lemma DefinitionsDocKeys()
    ensures GetOr(DefinitionsDoc.fields, "securityDefinitions", JNull) == JObj([("key", JObj([]))])
    ensures GetOr(DefinitionsDoc.fields, "security", JNull) == JNull
    ensures EndpointsWithoutAuth.PathsOf(DefinitionsDoc.fields) == OpenDoc.fields[0].1
  {
    var fs := DefinitionsDoc.fields;
    assert fs[1..] == OpenDoc.fields;
    assert "security" != "paths" && "security" != "securityDefinitions";
    assert Keys(fs) == ["securityDefinitions", "paths"];
  }

  /**
    Where the two detectors disagree: under declared `securityDefinitions` and with no top-level
    `security`, an operation without `security` of its own inherits nothing under the inheritance
    rule and is reported, while the `securityDefinitions`-only detector does not report it.
    */
  lemma DefinitionsDocWithoutAuth()
    ensures EndpointsWithoutAuth.Classify(DefinitionsDoc) == Ok([Endpoint("GET", "/a")])
  {
    GetIsVerbKey();
    DefinitionsDocKeys();
    var ctx := EndpointsWithoutAuth.SecurityContext(true, JNull);
    SingleWalk("/a", "get", JObj([]), EndpointsWithoutAuth.IsVerbKey);
    assert EndpointsWithoutAuth.AllOps(DefinitionsDoc) == [GetA];
    assert EndpointsWithoutAuth.ContextOf(DefinitionsDoc.fields) == Ok(ctx);
    SelectOne(GetA, EndpointsWithoutAuth.Public(ctx));
  }

  lemma DefinitionsDocDetect()
    ensures DetectPublic.Classify(DefinitionsDoc) == Ok([])
  {
    SingleWalk("/a", "get", JObj([]), DetectPublic.IsExactVerb);
    assert DetectPublic.Live(DefinitionsDoc);
    assert DetectPublic.AllOps(DefinitionsDoc) == [GetA];
    SelectOne(GetA, DetectPublic.Public(true));
  }
}
