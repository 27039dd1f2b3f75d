/**
  The public-endpoint detector of `detect_public_endpoints.py`: it looks only at
  `securityDefinitions`, and while those are declared it lists only operations whose
  `security` is exactly `[]`.
  */
module DetectPublic {
  import opened Text
  import opened Json
  import opened Walk

  /** `method in {...}`: only the seven lower-case verb keys, exactly as written, are recognised. */
  predicate IsExactVerb(m: string) {
    m in Verbs
  }

  /** With `securityDefinitions` declared, only an explicit `security: []` makes an operation public. */
  predicate IsPublic(live: bool, o: Op) {
    !live || SecurityOf(o) == JArr([])
  }

  function Public(live: bool): Op -> bool {
    o => IsPublic(live, o)
  }

  /** Whether the document declares a truthy `securityDefinitions`. */
  predicate Live(spec: Json)
    requires spec.JObj?
  {
    Truthy(GetOr(spec.fields, "securityDefinitions", JNull))
  }

  function PathsOf(spec: Json): Json
    requires spec.JObj?
  {
    GetOr(spec.fields, "paths", JObj([]))
  }

  /** Every operation the detector considers, in path-then-method document order. */
  function AllOps(spec: Json): seq<Op> {
    if spec.JObj? && PathsOf(spec).JObj? then PathOps(PathsOf(spec).fields, IsExactVerb) else []
  }

  /**
    The operations the detector lists, or the exception it raises: a document that is not an
    object, `paths` or a Path Item that is not an object, or (only while `securityDefinitions`
    are declared) a recognised operation that is not an object.
    */
  function Listed(spec: Json): Result<seq<Op>> {
    if !spec.JObj? then Raises(AttributeError)
    else
      var paths := PathsOf(spec);
      if !paths.JObj? || !Shaped(paths.fields, IsExactVerb, Live(spec)) then Raises(AttributeError)
      else Ok(Select(PathOps(paths.fields, IsExactVerb), Public(Live(spec))))
  }

  /** `detect_public_endpoints` after `json.load`: the `(METHOD, path)` pairs of the listed operations. */
  function Classify(spec: Json): Result<seq<Endpoint>> {
    match Listed(spec)
    case Ok(ops) => Ok(EndpointsOf(ops))
    case Raises(e) => Raises(e)
  }

  /** The outer loop over `paths`, in document order. */
  method DetectPublicEndpoints(spec: Json) returns (r: Result<seq<Endpoint>>)
    ensures r == Classify(spec)
  {
    if !spec.JObj? {
      return Raises(AttributeError);
    }
    var paths := GetOr(spec.fields, "paths", JObj([]));
    var securityDefinitions := GetOr(spec.fields, "securityDefinitions", JNull);
    ghost var live := Truthy(securityDefinitions);
    if !paths.JObj? {
      return Raises(AttributeError);
    }
    var items := paths.fields;
    var publicEndpoints: seq<Endpoint> := [];
    var i := 0;
    while i < |items|
      invariant 0 <= i <= |items|
      invariant ItemsAreObjects(items[..i])
      invariant live ==> OpsAreObjects(PathOps(items[..i], IsExactVerb))
      invariant publicEndpoints == EndpointsOf(Select(PathOps(items[..i], IsExactVerb), Public(live)))
    {
      var path := items[i].0;
      var methods := items[i].1;
      if !methods.JObj? {
        ItemNotObject(items, i);
        return Raises(AttributeError);
      }
      var scanned := ScanMethods(path, methods.fields, securityDefinitions, publicEndpoints);
      PathOpsStep(items, i, IsExactVerb);
      ghost var seen := PathOps(items[..i], IsExactVerb);
      ghost var here := MethodOps(path, methods.fields, IsExactVerb);
      assert methods.fields[..|methods.fields|] == methods.fields;
      if scanned.Raises? {
        ItemOpsNotObjects(items, i, IsExactVerb);
        return scanned;
      }
      publicEndpoints := scanned.value;
      OpsAreObjectsAppend(seen, here);
      ItemsAreObjectsStep(items, i);
      SelectAppend(seen, here, Public(live));
      EndpointsOfAppend(Select(seen, Public(live)), Select(here, Public(live)));
      i := i + 1;
    }
    assert items[..i] == items;
    return Ok(publicEndpoints);
  }

  /**
    The inner loop over one Path Item's method keys: skips keys that are not exact lower-case
    verbs and appends the pair of every listed operation; `operation.get` is reached, and raises
    on a non-object, only while `securityDefinitions` are declared.
    */
  method ScanMethods(path: string, methods: seq<(string, Json)>, securityDefinitions: Json, publicEndpoints: seq<Endpoint>)
    returns (r: Result<seq<Endpoint>>)
    ensures r.Raises? <==> Truthy(securityDefinitions) && !OpsAreObjects(MethodOps(path, methods, IsExactVerb))
    ensures r.Raises? ==> r.exc == AttributeError
    ensures r.Ok? ==> r.value == publicEndpoints +
                      EndpointsOf(Select(MethodOps(path, methods, IsExactVerb), Public(Truthy(securityDefinitions))))
  {
    ghost var live := Truthy(securityDefinitions);
    var listed := publicEndpoints;
    ghost var seen: seq<Op> := [];
    var j := 0;
    assert methods[..0] == [];
    while j < |methods|
      invariant 0 <= j <= |methods|
      invariant seen == MethodOps(path, methods[..j], IsExactVerb)
      invariant live ==> OpsAreObjects(seen)
      invariant listed == publicEndpoints + EndpointsOf(Select(seen, Public(live)))
    {
      var verb := methods[j].0;
      var operation := methods[j].1;
      MethodOpsSnoc(path, methods, j, IsExactVerb);
      if verb in Verbs {
        ghost var o := Op(verb, path, operation);
        SelectEndpointsSnoc(publicEndpoints, seen, o, Public(live));
        if Truthy(securityDefinitions) {
          if !operation.JObj? {
            MethodOpsPrefix(path, methods, j + 1, IsExactVerb);
            OpNotObject(MethodOps(path, methods, IsExactVerb), o);
            return Raises(AttributeError);
          }
          if GetOr(operation.fields, "security", JNull) == JArr([]) {
            listed := listed + [Endpoint(Upper(verb), path)];
          }
        } else {
          listed := listed + [Endpoint(Upper(verb), path)];
        }
        seen := seen + [o];
      }
      j := j + 1;
    }
    assert methods[..j] == methods;
    return Ok(listed);
  }

  /** The listed operations are exactly the considered operations that the rule calls public. */
  lemma ListedMembers(spec: Json, o: Op)
    requires Listed(spec).Ok?
    ensures o in Listed(spec).value <==> o in AllOps(spec) && IsPublic(Live(spec), o)
  {
    SelectMembers(AllOps(spec), Public(Live(spec)));
  }

  /** Method keys are matched exactly: `"GET"` or `"Get"` is skipped, and listed methods are upper-cased verbs. */
  lemma OnlyLowerCaseVerbKeys(spec: Json, o: Op)
    requires Listed(spec).Ok? && o in Listed(spec).value
    ensures o.verb in Verbs && EndpointOf(o).verb in UpperVerbs
    ensures o.path in Keys(PathsOf(spec).fields)
  {
    ListedMembers(spec, o);
    PathOpsMembers(PathsOf(spec).fields, IsExactVerb);
    UpperOfExactVerb(o.verb);
  }

  /** Without a truthy `securityDefinitions` every considered operation is listed, whatever its `security`. */
  lemma NoDefinitionsListsAll(spec: Json)
    requires Listed(spec).Ok? && !Live(spec)
    ensures Listed(spec).value == AllOps(spec)
  {
    SelectAll(AllOps(spec), Public(false));
  }

  /**
    With a truthy `securityDefinitions`, an operation is listed exactly when its `security` is `[]`;
    an operation without `security` is not listed.
    */
  lemma DefinitionsNeedEmptySecurity(spec: Json, o: Op)
    requires Listed(spec).Ok? && Live(spec) && o in AllOps(spec)
    ensures o in Listed(spec).value <==> SecurityOf(o) == JArr([])
  {
    ListedMembers(spec, o);
  }

  /** The report is a subsequence of all considered operations' pairs, so never longer than their number. */
  lemma ReportIsSubsequence(spec: Json)
    requires Classify(spec).Ok?
    ensures IsSubsequence(Classify(spec).value, EndpointsOf(AllOps(spec)))
    ensures |Classify(spec).value| <= |AllOps(spec)|
  {
    SelectSubsequence(AllOps(spec), Public(Live(spec)));
    EndpointsOfSubsequence(Listed(spec).value, AllOps(spec));
    SubsequenceLength(Classify(spec).value, EndpointsOf(AllOps(spec)));
  }

  /**
    Top-level `security` and `components` play no part: giving either any value leaves the
    result as it was.
    */
  lemma IgnoresGlobalSecurityAndComponents(spec: Json, key: string, v: Json)
    requires spec.JObj? && (key == "security" || key == "components")
    ensures Classify(JObj(Put(spec.fields, key, v))) == Classify(spec)
  {
    var spec' := JObj(Put(spec.fields, key, v));
    PutLookup(spec.fields, key, v, "paths");
    PutLookup(spec.fields, key, v, "securityDefinitions");
    assert PathsOf(spec') == PathsOf(spec);
    assert Live(spec') == Live(spec);
  }
}
