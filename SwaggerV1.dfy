/**
  `swagger_v1.py`: turns every operation of a Swagger 2.0 document into a Burp Suite request
  file. A `body` parameter's schema is filled with sample values by a depth-bounded walk of the
  document's `definitions`; query, header and path parameters get placeholder or sample values.
  */
module SwaggerV1 {
  import opened Text
  import opened Json

  /** A Python dict with string keys, in insertion order. */
  type Dict = seq<(string, Json)>

  /** How many more levels `generate_sample_body` may still enter from `depth`. */
  function Budget(depth: int, maxDepth: int): nat {
    if depth > maxDepth then 0 else maxDepth - depth + 1
  }

  // ---------------------------------------------------------------------------------------
  // generate_sample_body
  // ---------------------------------------------------------------------------------------

  /** The schema a body schema stands for: the definition its `$ref` names, or itself. */
  function ResolvedSchema(schemaRef: Dict, definitions: Json): Result<Json> {
    var refPath := GetOr(schemaRef, "$ref", JStr(""));
    if !Truthy(refPath) then Ok(JObj(schemaRef))
    else if !refPath.JStr? || !definitions.JObj? then Raises(AttributeError)
    else Ok(GetOr(definitions.fields, LastSegment(refPath.s, '/'), JObj([])))
  }

  /** The list of required names: the caller's, unless it is empty or missing. */
  function RequiredOf(schema: Dict, requiredFields: Json): Json {
    Or(requiredFields, GetOr(schema, "required", JArr([])))
  }

  /** The sample body for a (possibly referencing) schema at nesting level `depth`. */
  function SampleBody(schemaRef: Json, definitions: Json, requiredFields: Json,
                      depth: int, maxDepth: int, lib: PyLib): Result<Dict>
    decreases Budget(depth, maxDepth), 4
  {
    if depth > maxDepth then Ok([])
    else if !Truthy(schemaRef) || !Truthy(definitions) then Ok([])
    else if !schemaRef.JObj? then Raises(AttributeError)
    else match ResolvedSchema(schemaRef.fields, definitions)
      case Raises(e) => Raises(e)
      case Ok(schema) =>
        if !Truthy(schema) then Ok([])
        else if !schema.JObj? then Raises(AttributeError)
        else SchemaBody(schema.fields, definitions, requiredFields, depth, maxDepth, lib)
  }

  /** The sample body of a resolved, non-empty schema: its properties, then its required names. */
  function SchemaBody(schema: Dict, definitions: Json, requiredFields: Json,
                      depth: int, maxDepth: int, lib: PyLib): Result<Dict>
    requires depth <= maxDepth
    decreases Budget(depth, maxDepth), 3
  {
    var properties := GetOr(schema, "properties", JObj([]));
    if !properties.JObj? then Raises(AttributeError)
    else match PropsBody(properties.fields, definitions, depth, maxDepth, lib)
      case Raises(e) => Raises(e)
      case Ok(body) =>
        match Iterate(RequiredOf(schema, requiredFields))
        case Raises(e) => Raises(e)
        case Ok(names) => FillRequired(body, names, lib)
  }

  /** The entries the properties of a schema contribute, in declaration order. */
  function PropsBody(props: Dict, definitions: Json, depth: int, maxDepth: int, lib: PyLib): Result<Dict>
    requires depth <= maxDepth
    decreases Budget(depth, maxDepth), 2, |props|
  {
    if props == [] then Ok([])
    else match PropsBody(props[..|props| - 1], definitions, depth, maxDepth, lib)
      case Raises(e) => Raises(e)
      case Ok(body) =>
        var (name, prop) := props[|props| - 1];
        match PropValue(name, prop, definitions, depth, maxDepth, lib)
        case Raises(e) => Raises(e)
        case Ok(None) => Ok(body)
        case Ok(Some(v)) => Ok(Put(body, name, v))
  }

  /** A property's example when truthy, otherwise its default (which may be absent, i.e. None). */
  function GivenValue(prop: Dict): Json {
    Or(GetOr(prop, "example", JNull), GetOr(prop, "default", JNull))
  }

  /** The sample value of one property, or `None` when its type is not one the script fills. */
  function PropValue(name: string, prop: Json, definitions: Json,
                     depth: int, maxDepth: int, lib: PyLib): Result<Option<Json>>
    requires depth <= maxDepth
    decreases Budget(depth, maxDepth), 1
  {
    if !prop.JObj? then Raises(AttributeError)
    else
      var f := prop.fields;
      var propType := GetOr(f, "type", JNull);
      var propRef := GetOr(f, "$ref", JNull);
      var value := GivenValue(f);
      if propType == JStr("string") then
        Ok(Some(if value != JNull then value else JStr("sample_" + name)))
      else if propType == JStr("number") || propType == JStr("integer") then
        Ok(Some(if value != JNull then value else JInt(123)))
      else if propType == JStr("boolean") then
        Ok(Some(if value != JNull then value else JBool(true)))
      else if propType == JStr("array") then
        ArrayValue(name, GetOr(f, "items", JObj([])), definitions, depth, maxDepth, lib)
      else if propType == JStr("object") || Truthy(propRef) then
        var nested := if propType == JStr("object") then prop else JObj([("$ref", propRef)]);
        match SampleBody(nested, definitions, JArr([]), depth + 1, maxDepth, lib)
        case Raises(e) => Raises(e)
        case Ok(b) => Ok(Some(JObj(b)))
      else Ok(None)
  }

  /** The one-element list an array property gets. */
  function ArrayValue(name: string, items: Json, definitions: Json,
                      depth: int, maxDepth: int, lib: PyLib): Result<Option<Json>>
    requires depth <= maxDepth
    decreases Budget(depth, maxDepth), 0
  {
    if !items.JObj? then Raises(AttributeError)
    else
      var itemsRef := GetOr(items.fields, "$ref", JStr(""));
      if Truthy(itemsRef) then
        match SampleBody(JObj([("$ref", itemsRef)]), definitions, JArr([]), depth + 1, maxDepth, lib)
        case Raises(e) => Raises(e)
        case Ok(b) => Ok(Some(JArr([JObj(b)])))
      else
        var itemType := GetOr(items.fields, "type", JStr("string"));
        Ok(Some(JArr([if itemType == JStr("string") then JStr("sample_" + name + "_item") else JInt(123)])))
  }

  /** Adds `sample_<name>` for each required name the body lacks; a list or dict name is unhashable. */
  function FillRequired(body: Dict, names: seq<Json>, lib: PyLib): Result<Dict> {
    if names == [] then Ok(body)
    else match FillRequired(body, names[..|names| - 1], lib)
      case Raises(e) => Raises(e)
      case Ok(b) =>
        var n := names[|names| - 1];
        if n.JArr? || n.JObj? then Raises(TypeError)
        else if Str(n, lib) in Keys(b) then Ok(b)
        else Ok(Put(b, Str(n, lib), JStr("sample_" + Str(n, lib))))
  }

  /** The names of the properties that contribute an entry: the filled types, and any `$ref`. */
  predicate Produces(prop: Json) {
    prop.JObj? &&
    var t := GetOr(prop.fields, "type", JNull);
    t == JStr("string") || t == JStr("number") || t == JStr("integer") || t == JStr("boolean") ||
    t == JStr("array") || t == JStr("object") || Truthy(GetOr(prop.fields, "$ref", JNull))
  }

  function ProducedNames(props: Dict): seq<string> {
    if props == [] then []
    else ProducedNames(props[..|props| - 1]) + (if Produces(props[|props| - 1].1) then [props[|props| - 1].0] else [])
  }

  // ---------------------------------------------------------------------------------------
  // Properties of the sample body
  // ---------------------------------------------------------------------------------------

  /** The cases that give `{}` before any `$ref` is followed: past the depth limit, or nothing to work from. */
  lemma EmptyBodies(schemaRef: Json, definitions: Json, requiredFields: Json,
                    depth: int, maxDepth: int, lib: PyLib)
    ensures depth > maxDepth ==> SampleBody(schemaRef, definitions, requiredFields, depth, maxDepth, lib) == Ok([])
    ensures !Truthy(schemaRef) || !Truthy(definitions) ==>
              SampleBody(schemaRef, definitions, requiredFields, depth, maxDepth, lib) == Ok([])
  {
  }

  /**
    A schema dict whose `$ref` is a non-empty string, with any other keys beside it, gives `{}`
    when the definition its last `/` segment names is missing or falsy.
    */
  lemma DanglingRefIsEmpty(schemaRef: Json, ref: string, definitions: Json, requiredFields: Json,
                           depth: int, maxDepth: int, lib: PyLib)
    requires schemaRef.JObj? && Lookup(schemaRef.fields, "$ref") == Some(JStr(ref)) && ref != ""
    requires definitions.JObj?
    ensures LastSegment(ref, '/') !in Keys(definitions.fields) ==>
              SampleBody(schemaRef, definitions, requiredFields, depth, maxDepth, lib) == Ok([])
    ensures !Truthy(GetOr(definitions.fields, LastSegment(ref, '/'), JObj([]))) ==>
              SampleBody(schemaRef, definitions, requiredFields, depth, maxDepth, lib) == Ok([])
  {
  }

  /** Every name in `ProducedNames` is a key of the properties. */
  lemma {:induction false} ProducedNamesAreKeys(props: Dict)
    ensures forall k :: k in ProducedNames(props) ==> k in Keys(props)
  {
    if props != [] {
      var init := props[..|props| - 1];
      ProducedNamesAreKeys(init);
      assert Keys(init) == Keys(props)[..|props| - 1];
    }
  }

  /** A property contributes an entry exactly when it has a filled type or a `$ref`. */
  lemma PropValueProduces(name: string, prop: Json, definitions: Json, depth: int, maxDepth: int, lib: PyLib)
    requires depth <= maxDepth
    requires PropValue(name, prop, definitions, depth, maxDepth, lib).Ok?
    ensures PropValue(name, prop, definitions, depth, maxDepth, lib).value.Some? <==> Produces(prop)
  {
  }

  /** The keys of the properties' entries are the producing properties' names, without repeats. */
  lemma {:induction false} PropsBodyKeys(props: Dict, definitions: Json, depth: int, maxDepth: int, lib: PyLib, body: Dict)
    requires depth <= maxDepth && DistinctKeys(props)
    requires PropsBody(props, definitions, depth, maxDepth, lib) == Ok(body)
    ensures Keys(body) == ProducedNames(props)
    ensures DistinctKeys(body)
  {
    if props != [] {
      var init := props[..|props| - 1];
      var (name, prop) := props[|props| - 1];
      assert DistinctKeys(init);
      var pb := PropsBody(init, definitions, depth, maxDepth, lib);
      assert pb.Ok?;
      PropsBodyKeys(init, definitions, depth, maxDepth, lib, pb.value);
      PropValueProduces(name, prop, definitions, depth, maxDepth, lib);
      var pv := PropValue(name, prop, definitions, depth, maxDepth, lib);
      if pv.value.Some? {
        assert name !in Keys(pb.value) by {
          forall i | 0 <= i < |init| ensures Keys(init)[i] != name {
            assert props[i].0 != props[|props| - 1].0;
          }
          ProducedNamesAreKeys(init);
        }
        PutKeys(pb.value, name, pv.value.value);
        PutDistinct(pb.value, name, pv.value.value);
      }
    }
  }

  /** A required name appended by `FillRequired` is the string form of one of the names. */
  predicate NamedIn(k: string, names: seq<Json>, lib: PyLib) {
    exists i :: 0 <= i < |names| && Str(names[i], lib) == k
  }

  /**
    Filling the required names keeps the body as it was, makes every name a key, and appends
    only required names, each with the value `sample_<name>`.
    */
  lemma {:induction false} FillRequiredShape(body: Dict, names: seq<Json>, lib: PyLib, b: Dict)
    requires FillRequired(body, names, lib) == Ok(b)
    ensures |body| <= |b| && b[..|body|] == body
    ensures forall i :: 0 <= i < |names| ==> Str(names[i], lib) in Keys(b)
    ensures forall j :: |body| <= j < |b| ==> b[j].1 == JStr("sample_" + b[j].0) && NamedIn(b[j].0, names, lib)
    ensures DistinctKeys(body) ==> DistinctKeys(b)
  {
    if names != [] {
      var init := names[..|names| - 1];
      var n := names[|names| - 1];
      var prev := FillRequired(body, init, lib);
      assert prev.Ok?;
      FillRequiredShape(body, init, lib, prev.value);
      forall j | |body| <= j < |prev.value| ensures NamedIn(prev.value[j].0, names, lib) {
        var i :| 0 <= i < |init| && Str(init[i], lib) == prev.value[j].0;
        assert names[i] == init[i];
      }
      if Str(n, lib) !in Keys(prev.value) {
        PutAppends(prev.value, Str(n, lib), JStr("sample_" + Str(n, lib)));
        if DistinctKeys(body) {
          PutDistinct(prev.value, Str(n, lib), JStr("sample_" + Str(n, lib)));
        }
        assert Keys(b) == Keys(prev.value) + [Str(n, lib)];
        assert NamedIn(Str(n, lib), names, lib) by {
          assert Str(names[|names| - 1], lib) == Str(n, lib);
        }
      }
      forall i | 0 <= i < |names| ensures Str(names[i], lib) in Keys(b) {
        if i < |names| - 1 {
          assert names[i] == init[i];
          assert Keys(prev.value) <= Keys(b);
        }
      }
    }
  }

  /** Filling fails exactly when some required name is a list or a dict. */
  lemma {:induction false} FillRequiredFails(body: Dict, names: seq<Json>, lib: PyLib)
    ensures FillRequired(body, names, lib).Raises? <==> exists i :: 0 <= i < |names| && (names[i].JArr? || names[i].JObj?)
    ensures FillRequired(body, names, lib).Raises? ==> FillRequired(body, names, lib).exc == TypeError
  {
    if names != [] {
      var init := names[..|names| - 1];
      FillRequiredFails(body, init, lib);
      if exists i :: 0 <= i < |init| && (init[i].JArr? || init[i].JObj?) {
        var i :| 0 <= i < |init| && (init[i].JArr? || init[i].JObj?);
        assert names[i] == init[i];
      }
      if exists i :: 0 <= i < |names| && (names[i].JArr? || names[i].JObj?) {
        var i :| 0 <= i < |names| && (names[i].JArr? || names[i].JObj?);
        if i < |names| - 1 {
          assert init[i] == names[i];
        }
      }
    }
  }

  /**
    The body of a resolved schema: first one entry per producing property, in declaration
    order, then one `sample_<name>` entry per required name not already present; every
    required name ends up a key, and no key repeats.
    */
  lemma SchemaBodyShape(schema: Dict, definitions: Json, requiredFields: Json,
                        depth: int, maxDepth: int, lib: PyLib, props: Dict, b: Dict)
    requires depth <= maxDepth
    requires GetOr(schema, "properties", JObj([])) == JObj(props) && DistinctKeys(props)
    requires SchemaBody(schema, definitions, requiredFields, depth, maxDepth, lib) == Ok(b)
    ensures Iterate(RequiredOf(schema, requiredFields)).Ok?
    ensures |ProducedNames(props)| <= |b| && Keys(b)[..|ProducedNames(props)|] == ProducedNames(props)
    ensures var names := Iterate(RequiredOf(schema, requiredFields)).value;
            (forall i :: 0 <= i < |names| ==> Str(names[i], lib) in Keys(b)) &&
            forall j :: |ProducedNames(props)| <= j < |b| ==>
              b[j].1 == JStr("sample_" + b[j].0) && NamedIn(b[j].0, names, lib)
    ensures DistinctKeys(b)
  {
    var pb := PropsBody(props, definitions, depth, maxDepth, lib);
    assert pb.Ok?;
    PropsBodyKeys(props, definitions, depth, maxDepth, lib, pb.value);
    var names := Iterate(RequiredOf(schema, requiredFields)).value;
    FillRequiredShape(pb.value, names, lib, b);
    assert Keys(b)[..|pb.value|] == Keys(b[..|pb.value|]);
  }

  /** A scalar property takes its truthy example, or else its given default. */
  lemma ScalarGivenValue(name: string, f: Dict, definitions: Json, depth: int, maxDepth: int, lib: PyLib)
    requires depth <= maxDepth
    requires var t := GetOr(f, "type", JNull);
             t == JStr("string") || t == JStr("number") || t == JStr("integer") || t == JStr("boolean")
    ensures var r := PropValue(name, JObj(f), definitions, depth, maxDepth, lib);
            r.Ok? && r.value.Some? &&
            (Truthy(GetOr(f, "example", JNull)) ==> r.value.value == GetOr(f, "example", JNull)) &&
            (!Truthy(GetOr(f, "example", JNull)) && GetOr(f, "default", JNull) != JNull ==>
               r.value.value == GetOr(f, "default", JNull))
  {
  }

  /**
    Without a usable example or default a scalar property gets its placeholder; a falsy
    example such as `0` or `false` is passed over.
    */
  lemma ScalarFallback(name: string, f: Dict, definitions: Json, depth: int, maxDepth: int, lib: PyLib)
    requires depth <= maxDepth
    requires !Truthy(GetOr(f, "example", JNull)) && GetOr(f, "default", JNull) == JNull
    ensures var t := GetOr(f, "type", JNull);
            var r := PropValue(name, JObj(f), definitions, depth, maxDepth, lib);
            (t == JStr("string") ==> r == Ok(Some(JStr("sample_" + name)))) &&
            (t == JStr("number") || t == JStr("integer") ==> r == Ok(Some(JInt(123)))) &&
            (t == JStr("boolean") ==> r == Ok(Some(JBool(true))))
  {
  }

  /**
    The depth limit bounds the recursion: at the last level every nested object, `$ref` or
    referencing array property gets the empty body.
    */
  lemma LastLevelNestsEmpty(name: string, f: Dict, definitions: Json, depth: int, lib: PyLib)
    ensures var t := GetOr(f, "type", JNull);
            var r := PropValue(name, JObj(f), definitions, depth, depth, lib);
            (t == JStr("object") || (Truthy(GetOr(f, "$ref", JNull)) && t != JStr("string") && t != JStr("number") &&
             t != JStr("integer") && t != JStr("boolean") && t != JStr("array"))) ==>
              r == Ok(Some(JObj([])))
    ensures var items := GetOr(f, "items", JObj([]));
            GetOr(f, "type", JNull) == JStr("array") && items.JObj? && Truthy(GetOr(items.fields, "$ref", JStr(""))) ==>
              PropValue(name, JObj(f), definitions, depth, depth, lib) == Ok(Some(JArr([JObj([])])))
  {
    var items := GetOr(f, "items", JObj([]));
    if GetOr(f, "type", JNull) == JStr("array") && items.JObj? && Truthy(GetOr(items.fields, "$ref", JStr(""))) {
      var itemsRef := GetOr(items.fields, "$ref", JStr(""));
      assert SampleBody(JObj([("$ref", itemsRef)]), definitions, JArr([]), depth + 1, depth, lib) == Ok([]);
      assert ArrayValue(name, items, definitions, depth, depth, lib) == Ok(Some(JArr([JObj([])])));
    }
  }

  // ---------------------------------------------------------------------------------------
  // The script's loops
  // ---------------------------------------------------------------------------------------

  lemma {:induction false} PropsBodyStops(props: Dict, i: int, definitions: Json, depth: int, maxDepth: int, lib: PyLib)
    requires depth <= maxDepth && 0 <= i <= |props|
    requires PropsBody(props[..i], definitions, depth, maxDepth, lib).Raises?
    ensures PropsBody(props, definitions, depth, maxDepth, lib) == PropsBody(props[..i], definitions, depth, maxDepth, lib)
    decreases |props|
  {
    if i < |props| {
      assert props[..|props| - 1][..i] == props[..i];
      PropsBodyStops(props[..|props| - 1], i, definitions, depth, maxDepth, lib);
    } else {
      assert props[..i] == props;
    }
  }

  lemma {:induction false} FillRequiredStops(body: Dict, names: seq<Json>, i: int, lib: PyLib)
    requires 0 <= i <= |names|
    requires FillRequired(body, names[..i], lib).Raises?
    ensures FillRequired(body, names, lib) == FillRequired(body, names[..i], lib)
    decreases |names|
  {
    if i < |names| {
      assert names[..|names| - 1][..i] == names[..i];
      FillRequiredStops(body, names[..|names| - 1], i, lib);
    } else {
      assert names[..i] == names;
    }
  }

  /** `generate_sample_body`, with its loop over the properties and its loop over the required names. */
  method GenerateSampleBody(schemaRef: Json, definitions: Json, requiredFields: Json,
                            depth: int, maxDepth: int, lib: PyLib) returns (r: Result<Dict>)
    ensures r == SampleBody(schemaRef, definitions, requiredFields, depth, maxDepth, lib)
    decreases Budget(depth, maxDepth), 4
  {
    if depth > maxDepth {
      return Ok([]);
    }
    if !Truthy(schemaRef) || !Truthy(definitions) {
      return Ok([]);
    }
    if !schemaRef.JObj? {
      return Raises(AttributeError);
    }
    var refPath := GetOr(schemaRef.fields, "$ref", JStr(""));
    var schema;
    if Truthy(refPath) {
      if !refPath.JStr? || !definitions.JObj? {
        return Raises(AttributeError);
      }
      var schemaKey := LastSegment(refPath.s, '/');
      schema := GetOr(definitions.fields, schemaKey, JObj([]));
    } else {
      schema := schemaRef;
    }
    if !Truthy(schema) {
      return Ok([]);
    }
    if !schema.JObj? {
      return Raises(AttributeError);
    }
    r := FillSchema(schema.fields, definitions, requiredFields, depth, maxDepth, lib);
  }

  /** The part of `generate_sample_body` after the schema is resolved. */
  method FillSchema(schema: Dict, definitions: Json, requiredFields: Json,
                    depth: int, maxDepth: int, lib: PyLib) returns (r: Result<Dict>)
    requires depth <= maxDepth
    ensures r == SchemaBody(schema, definitions, requiredFields, depth, maxDepth, lib)
    decreases Budget(depth, maxDepth), 3
  {
    var properties := GetOr(schema, "properties", JObj([]));
    var required := RequiredOf(schema, requiredFields);
    if !properties.JObj? {
      return Raises(AttributeError);
    }
    var sampleBody := SampleProperties(properties.fields, definitions, depth, maxDepth, lib);
    if sampleBody.Raises? {
      return sampleBody;
    }
    var names := Iterate(required);
    if names.Raises? {
      return Raises(names.exc);
    }
    r := AddRequired(sampleBody.value, names.value, lib);
  }

  /** The loop over a schema's properties. */
  method SampleProperties(props: Dict, definitions: Json, depth: int, maxDepth: int, lib: PyLib)
    returns (r: Result<Dict>)
    requires depth <= maxDepth
    ensures r == PropsBody(props, definitions, depth, maxDepth, lib)
    decreases Budget(depth, maxDepth), 2, |props|
  {
    var sampleBody: Dict := [];
    var i := 0;
    while i < |props|
      invariant 0 <= i <= |props|
      invariant PropsBody(props[..i], definitions, depth, maxDepth, lib) == Ok(sampleBody)
    {
      var value := PropSample(props[i].0, props[i].1, definitions, depth, maxDepth, lib);
      assert props[..i + 1][..i] == props[..i];
      if value.Raises? {
        PropsBodyStops(props, i + 1, definitions, depth, maxDepth, lib);
        return Raises(value.exc);
      }
      if value.value.Some? {
        sampleBody := Put(sampleBody, props[i].0, value.value.value);
      }
      i := i + 1;
    }
    assert props[..i] == props;
    return Ok(sampleBody);
  }

  /** The loop over the required names. */
  method AddRequired(body: Dict, names: seq<Json>, lib: PyLib) returns (r: Result<Dict>)
    ensures r == FillRequired(body, names, lib)
  {
    var sampleBody := body;
    var j := 0;
    while j < |names|
      invariant 0 <= j <= |names|
      invariant FillRequired(body, names[..j], lib) == Ok(sampleBody)
    {
      var reqField := names[j];
      assert names[..j + 1][..j] == names[..j];
      if reqField.JArr? || reqField.JObj? {
        FillRequiredStops(body, names, j + 1, lib);
        return Raises(TypeError);
      }
      var key := Str(reqField, lib);
      if key !in Keys(sampleBody) {
        sampleBody := Put(sampleBody, key, JStr("sample_" + key));
      }
      j := j + 1;
    }
    assert names[..j] == names;
    return Ok(sampleBody);
  }

  /** The body of the loop over the properties: the value one property contributes. */
  method PropSample(name: string, prop: Json, definitions: Json,
                    depth: int, maxDepth: int, lib: PyLib) returns (r: Result<Option<Json>>)
    requires depth <= maxDepth
    ensures r == PropValue(name, prop, definitions, depth, maxDepth, lib)
    decreases Budget(depth, maxDepth), 1
  {
    if !prop.JObj? {
      return Raises(AttributeError);
    }
    var f := prop.fields;
    var propType := GetOr(f, "type", JNull);
    var propRef := GetOr(f, "$ref", JNull);
    var value := GivenValue(f);
    if propType == JStr("string") {
      r := Ok(Some(if value != JNull then value else JStr("sample_" + name)));
    } else if propType == JStr("number") || propType == JStr("integer") {
      r := Ok(Some(if value != JNull then value else JInt(123)));
    } else if propType == JStr("boolean") {
      r := Ok(Some(if value != JNull then value else JBool(true)));
    } else if propType == JStr("array") {
      r := ArraySample(name, GetOr(f, "items", JObj([])), definitions, depth, maxDepth, lib);
    } else if propType == JStr("object") || Truthy(propRef) {
      var nested := if propType == JStr("object") then prop else JObj([("$ref", propRef)]);
      var b := GenerateSampleBody(nested, definitions, JArr([]), depth + 1, maxDepth, lib);
      r := if b.Ok? then Ok(Some(JObj(b.value))) else Raises(b.exc);
    } else {
      r := Ok(None);
    }
  }

  method ArraySample(name: string, items: Json, definitions: Json,
                     depth: int, maxDepth: int, lib: PyLib) returns (r: Result<Option<Json>>)
    requires depth <= maxDepth
    ensures r == ArrayValue(name, items, definitions, depth, maxDepth, lib)
    decreases Budget(depth, maxDepth), 0
  {
    if !items.JObj? {
      return Raises(AttributeError);
    }
    var itemsRef := GetOr(items.fields, "$ref", JStr(""));
    if Truthy(itemsRef) {
      var b := GenerateSampleBody(JObj([("$ref", itemsRef)]), definitions, JArr([]), depth + 1, maxDepth, lib);
      r := if b.Ok? then Ok(Some(JArr([JObj(b.value)]))) else Raises(b.exc);
    } else {
      var itemType := GetOr(items.fields, "type", JStr("string"));
      r := Ok(Some(JArr([if itemType == JStr("string") then JStr("sample_" + name + "_item") else JInt(123)])));
    }
  }

  // ---------------------------------------------------------------------------------------
  // generate_burp_request
  // ---------------------------------------------------------------------------------------

  /** The request as the loop over the parameters builds it up. */
  datatype Draft = Draft(path: string, query: seq<(Json, Json)>, headers: Dict, body: string)

  /** What `generate_burp_request` returns: the request text, its headers, its body and its path. */
  datatype Generated = Generated(request: string, headers: Dict, body: string, path: string)

  const UserAgent := "Mozilla/5.0 (Windows NT 10.0; Win64; x64) AppleWebKit/537.36"

  /** The headers every request starts with, in this order. */
  const FixedHeaderNames := ["Host", "User-Agent", "Accept", "Content-Type"]

  /** The headers before any parameter is seen; `customHost` and `token` are "" when not given. */
  function InitialHeaders(host: Json, customHost: string, token: string): Dict {
    var fixed := [("Host", if customHost != "" then JStr(customHost) else host),
                  ("User-Agent", JStr(UserAgent)),
                  ("Accept", JStr("application/json")),
                  ("Content-Type", JStr("application/json"))];
    if token != "" then Put(fixed, "Authorization", JStr("Bearer " + token)) else fixed
  }

  /** The value a query, header or path parameter gets. */
  function ParamValue(param: Dict, lib: PyLib): Json {
    if !Truthy(GetOr(param, "required", JBool(false))) then
      Or(GetOr(param, "default", JStr("")), JStr("{{input_" + Str(GetOr(param, "name", JNull), lib) + "}}"))
    else JStr("sample_" + Str(GetOr(param, "type", JStr("string")), lib))
  }

  /** The text of the sample body a `body` parameter gets, `json.dumps(..., indent=2)`. */
  function BodyText(bodySchema: Json, definitions: Json, lib: PyLib): Result<string> {
    if !bodySchema.JObj? then Raises(AttributeError)
    else match SampleBody(bodySchema, definitions, GetOr(bodySchema.fields, "required", JArr([])), 0, 5, lib)
      case Raises(e) => Raises(e)
      case Ok(b) => Ok(lib.dumpsIndented(JObj(b)))
  }

  /**
    What one parameter does to the request under construction; `bodyText` is the sample body
    text, which the script computes when it meets a `body` parameter.
    */
  function ApplyParam(d: Draft, param: Json, token: string, bodySchema: Json, bodyText: Result<string>, lib: PyLib): Result<Draft> {
    if !param.JObj? then Raises(AttributeError)
    else
      var name := GetOr(param.fields, "name", JNull);
      var location := GetOr(param.fields, "in", JNull);
      var value := ParamValue(param.fields, lib);
      if location == JStr("query") then Ok(d.(query := d.query + [(name, value)]))
      else if location == JStr("header") then
        if !name.JStr? then Raises(AttributeError)
        else if Lower(name.s) != "authorization" || token == "" then Ok(d.(headers := Put(d.headers, name.s, value)))
        else Ok(d)
      else if location == JStr("path") then
        if !value.JStr? then Raises(TypeError)
        else Ok(d.(path := Replace(d.path, "{" + Str(name, lib) + "}", value.s)))
      else if location == JStr("body") && Truthy(bodySchema) then
        match bodyText
        case Raises(e) => Raises(e)
        case Ok(text) => Ok(d.(body := text))
      else Ok(d)
  }

  /** The parameters applied in order; the first failing one ends the request. */
  function ApplyParams(d: Draft, params: seq<Json>, token: string, bodySchema: Json, bodyText: Result<string>, lib: PyLib): Result<Draft> {
    if params == [] then Ok(d)
    else match ApplyParams(d, params[..|params| - 1], token, bodySchema, bodyText, lib)
      case Raises(e) => Raises(e)
      case Ok(d') => ApplyParam(d', params[|params| - 1], token, bodySchema, bodyText, lib)
  }

  /** Only these methods carry a body. */
  predicate CarriesBody(verb: string, body: string) {
    var m := Upper(verb);
    body != "" && (m == "POST" || m == "PUT" || m == "PATCH" || m == "DELETE")
  }

  function HeaderLines(headers: Dict, lib: PyLib): (lines: seq<string>)
    ensures |lines| == |headers|
  {
    seq(|headers|, i requires 0 <= i < |headers| => headers[i].0 + ": " + Str(headers[i].1, lib))
  }

  function RequestLines(verb: string, path: string, headers: Dict, body: string, lib: PyLib): seq<string> {
    [Upper(verb) + " " + path + " HTTP/1.1"] + HeaderLines(headers, lib) + (if CarriesBody(verb, body) then ["", body] else [])
  }

  /** The path, with the query string when there is one, and `//` collapsed. */
  function FinalPath(d: Draft, lib: PyLib): string {
    var withQuery := if d.query != [] then d.path + "?" + lib.urlencode(d.query) else d.path;
    Replace(withQuery, "//", "/")
  }

  /** The request path and headers before any parameter is seen. */
  function StartDraft(path: string, host: Json, basePath: Json, token: string, customHost: string, lib: PyLib): Draft {
    Draft(Replace(Str(basePath, lib) + path, "//", "/"), [], InitialHeaders(host, customHost, token), "")
  }

  /** The request built from the finished draft. */
  function Render(verb: string, d: Draft, lib: PyLib): Generated {
    var finalPath := FinalPath(d, lib);
    Generated(Join(RequestLines(verb, finalPath, d.headers, d.body, lib), "\n"), d.headers, d.body, finalPath)
  }

  /** `generate_burp_request`; `token` and `customHost` are "" when not given. */
  function BurpRequest(verb: string, path: string, host: Json, basePath: Json, parameters: Json,
                       bodySchema: Json, definitions: Json, token: string, customHost: string, lib: PyLib): Result<Generated>
  {
    match Iterate(parameters)
    case Raises(e) => Raises(e)
    case Ok(params) =>
      match ApplyParams(StartDraft(path, host, basePath, token, customHost, lib), params, token, bodySchema, BodyText(bodySchema, definitions, lib), lib)
      case Raises(e) => Raises(e)
      case Ok(d) => Ok(Render(verb, d, lib))
  }

  // ---------------------------------------------------------------------------------------
  // Properties of the request
  // ---------------------------------------------------------------------------------------

  /**
    The parameter value rule: a required parameter gets `sample_<type>`, an optional one its
    truthy default, or else the placeholder `{{input_<name>}}`.
    */
  lemma ParamValueRule(param: Dict, lib: PyLib)
    ensures var v := ParamValue(param, lib);
            var name := Str(GetOr(param, "name", JNull), lib);
            (Truthy(GetOr(param, "required", JBool(false))) ==>
               v == JStr("sample_" + Str(GetOr(param, "type", JStr("string")), lib))) &&
            (!Truthy(GetOr(param, "required", JBool(false))) && Truthy(GetOr(param, "default", JStr(""))) ==>
               v == GetOr(param, "default", JStr(""))) &&
            (!Truthy(GetOr(param, "required", JBool(false))) && !Truthy(GetOr(param, "default", JStr(""))) ==>
               v == JStr("{{input_" + name + "}}"))
  {
  }

  /** Each kind of parameter touches its own part of the request and nothing else. */
  lemma ApplyParamEffects(d: Draft, param: Dict, token: string, bodySchema: Json, bodyText: Result<string>, lib: PyLib)
    ensures var r := ApplyParam(d, JObj(param), token, bodySchema, bodyText, lib);
            var location := GetOr(param, "in", JNull);
            r.Ok? ==>
              (location == JStr("query") ==> r.value == d.(query := d.query + [(GetOr(param, "name", JNull), ParamValue(param, lib))])) &&
              (location != JStr("query") ==> r.value.query == d.query) &&
              (location != JStr("header") ==> r.value.headers == d.headers) &&
              (location != JStr("path") ==> r.value.path == d.path) &&
              (location != JStr("body") ==> r.value.body == d.body)
  {
  }

  /**
    One parameter leaves the headers alone or sets one header named by the parameter; with a
    token, never one called Authorization in any case.
    */
  lemma ApplyParamHeaders(d: Draft, param: Json, token: string, bodySchema: Json, bodyText: Result<string>, lib: PyLib)
    ensures var r := ApplyParam(d, param, token, bodySchema, bodyText, lib);
            r.Ok? ==>
              r.value.headers == d.headers ||
              (param.JObj? && GetOr(param.fields, "name", JNull).JStr? &&
               r.value.headers == Put(d.headers, GetOr(param.fields, "name", JNull).s, ParamValue(param.fields, lib)) &&
               (token != "" ==> Lower(GetOr(param.fields, "name", JNull).s) != "authorization"))
  {
  }

  lemma LowerAuthorization()
    ensures Lower("Authorization") == "authorization"
  {
  }

  /** Every parameter with a token leaves the bearer Authorization header as it is. */
  lemma {:induction false} TokenHeaderKept(d: Draft, params: seq<Json>, token: string, bodySchema: Json, bodyText: Result<string>, lib: PyLib)
    requires token != "" && Lookup(d.headers, "Authorization") == Some(JStr("Bearer " + token))
    ensures var r := ApplyParams(d, params, token, bodySchema, bodyText, lib);
            r.Ok? ==> Lookup(r.value.headers, "Authorization") == Some(JStr("Bearer " + token))
  {
    if params != [] {
      var prev := ApplyParams(d, params[..|params| - 1], token, bodySchema, bodyText, lib);
      TokenHeaderKept(d, params[..|params| - 1], token, bodySchema, bodyText, lib);
      if prev.Ok? {
        var param := params[|params| - 1];
        ApplyParamHeaders(prev.value, param, token, bodySchema, bodyText, lib);
        var r := ApplyParam(prev.value, param, token, bodySchema, bodyText, lib);
        if r.Ok? && r.value.headers != prev.value.headers {
          var name := GetOr(param.fields, "name", JNull).s;
          LowerAuthorization();
          PutLookup(prev.value.headers, name, ParamValue(param.fields, lib), "Authorization");
        }
      }
    }
  }

  /** The four fixed headers stay first, in order, whatever the parameters add. */
  lemma {:induction false} FixedHeadersStayFirst(d: Draft, params: seq<Json>, token: string, bodySchema: Json, bodyText: Result<string>, lib: PyLib)
    requires |d.headers| >= 4 && Keys(d.headers)[..4] == FixedHeaderNames
    ensures var r := ApplyParams(d, params, token, bodySchema, bodyText, lib);
            r.Ok? ==> |r.value.headers| >= 4 && Keys(r.value.headers)[..4] == FixedHeaderNames
  {
    if params != [] {
      var prev := ApplyParams(d, params[..|params| - 1], token, bodySchema, bodyText, lib);
      FixedHeadersStayFirst(d, params[..|params| - 1], token, bodySchema, bodyText, lib);
      if prev.Ok? {
        var param := params[|params| - 1];
        ApplyParamHeaders(prev.value, param, token, bodySchema, bodyText, lib);
        var r := ApplyParam(prev.value, param, token, bodySchema, bodyText, lib);
        if r.Ok? && r.value.headers != prev.value.headers {
          var name := GetOr(param.fields, "name", JNull).s;
          PutKeys(prev.value.headers, name, ParamValue(param.fields, lib));
          assert (Keys(prev.value.headers) + [name])[..4] == Keys(prev.value.headers)[..4];
        }
      }
    }
  }

  /** The request starts with the fixed headers, plus the bearer token when one is given. */
  lemma InitialHeadersShape(host: Json, customHost: string, token: string)
    ensures var h := InitialHeaders(host, customHost, token);
            |h| >= 4 && Keys(h)[..4] == FixedHeaderNames &&
            h[0].1 == (if customHost != "" then JStr(customHost) else host) &&
            (token != "" ==> Lookup(h, "Authorization") == Some(JStr("Bearer " + token))) &&
            (token == "" ==> |h| == 4)
  {
    var fixed := [("Host", if customHost != "" then JStr(customHost) else host),
                  ("User-Agent", JStr(UserAgent)),
                  ("Accept", JStr("application/json")),
                  ("Content-Type", JStr("application/json"))];
    if token != "" {
      assert "Authorization" !in Keys(fixed);
      PutAppends(fixed, "Authorization", JStr("Bearer " + token));
      PutLookup(fixed, "Authorization", JStr("Bearer " + token), "Authorization");
    }
  }

  /**
    The generated request: its header dict keeps the fixed headers first and, with a token,
    the bearer Authorization header whatever the header parameters say.
    */
  lemma GeneratedHeaders(verb: string, path: string, host: Json, basePath: Json, parameters: Json,
                         bodySchema: Json, definitions: Json, token: string, customHost: string, lib: PyLib)
    ensures var r := BurpRequest(verb, path, host, basePath, parameters, bodySchema, definitions, token, customHost, lib);
            r.Ok? ==>
              |r.value.headers| >= 4 && Keys(r.value.headers)[..4] == FixedHeaderNames &&
              (token != "" ==> Lookup(r.value.headers, "Authorization") == Some(JStr("Bearer " + token)))
  {
    var ps := Iterate(parameters);
    if ps.Ok? {
      var start := StartDraft(path, host, basePath, token, customHost, lib);
      InitialHeadersShape(host, customHost, token);
      var bodyText := BodyText(bodySchema, definitions, lib);
      FixedHeadersStayFirst(start, ps.value, token, bodySchema, bodyText, lib);
      if token != "" {
        TokenHeaderKept(start, ps.value, token, bodySchema, bodyText, lib);
      }
      var d := ApplyParams(start, ps.value, token, bodySchema, bodyText, lib);
      assert d.Ok? ==> BurpRequest(verb, path, host, basePath, parameters, bodySchema, definitions, token, customHost, lib) == Ok(Render(verb, d.value, lib));
    }
  }

  /**
    The request text: the request line, then one line per header in order, and an empty line
    and the body only for POST, PUT, PATCH and DELETE with a non-empty body.
    */
  lemma RequestLayout(verb: string, path: string, headers: Dict, body: string, lib: PyLib)
    requires |headers| >= 1
    ensures var text := Join(RequestLines(verb, path, headers, body, lib), "\n");
            var head := [Upper(verb) + " " + path + " HTTP/1.1"] + HeaderLines(headers, lib);
            StartsWith(text, Upper(verb) + " " + path + " HTTP/1.1\n") &&
            (CarriesBody(verb, body) ==> text == Join(head, "\n") + "\n\n" + body) &&
            (!CarriesBody(verb, body) ==> text == Join(head, "\n"))
  {
    var head := [Upper(verb) + " " + path + " HTTP/1.1"] + HeaderLines(headers, lib);
    var lines := RequestLines(verb, path, headers, body, lib);
    assert lines[0] == head[0] && lines[1] == head[1];
    JoinStartsWith(lines, "\n");
    if CarriesBody(verb, body) {
      assert lines == head + [""] + [body];
      JoinSnoc(head, "", "\n");
      JoinSnoc(head + [""], body, "\n");
    } else {
      assert lines == head;
    }
  }

  // ---------------------------------------------------------------------------------------
  // The script's loop over the parameters
  // ---------------------------------------------------------------------------------------

  lemma {:induction false} ApplyParamsStops(d: Draft, params: seq<Json>, i: int, token: string, bodySchema: Json, bodyText: Result<string>, lib: PyLib)
    requires 0 <= i <= |params|
    requires ApplyParams(d, params[..i], token, bodySchema, bodyText, lib).Raises?
    ensures ApplyParams(d, params, token, bodySchema, bodyText, lib) == ApplyParams(d, params[..i], token, bodySchema, bodyText, lib)
    decreases |params|
  {
    if i < |params| {
      assert params[..|params| - 1][..i] == params[..i];
      ApplyParamsStops(d, params[..|params| - 1], i, token, bodySchema, bodyText, lib);
    } else {
      assert params[..i] == params;
    }
  }

  /** The body of the loop over the parameters. */
  method ProcessParam(d: Draft, param: Json, token: string, bodySchema: Json, definitions: Json, lib: PyLib)
    returns (r: Result<Draft>)
    ensures r == ApplyParam(d, param, token, bodySchema, BodyText(bodySchema, definitions, lib), lib)
  {
    if !param.JObj? {
      return Raises(AttributeError);
    }
    var paramName := GetOr(param.fields, "name", JNull);
    var paramIn := GetOr(param.fields, "in", JNull);
    var value := ParamValue(param.fields, lib);
    r := Ok(d);
    if paramIn == JStr("query") {
      r := Ok(d.(query := d.query + [(paramName, value)]));
    } else if paramIn == JStr("header") {
      if !paramName.JStr? {
        return Raises(AttributeError);
      }
      if Lower(paramName.s) != "authorization" || token == "" {
        r := Ok(d.(headers := Put(d.headers, paramName.s, value)));
      }
    } else if paramIn == JStr("path") {
      if !value.JStr? {
        return Raises(TypeError);
      }
      r := Ok(d.(path := Replace(d.path, "{" + Str(paramName, lib) + "}", value.s)));
    } else if paramIn == JStr("body") && Truthy(bodySchema) {
      if !bodySchema.JObj? {
        return Raises(AttributeError);
      }
      var sample := GenerateSampleBody(bodySchema, definitions, GetOr(bodySchema.fields, "required", JArr([])), 0, 5, lib);
      if sample.Raises? {
        return Raises(sample.exc);
      }
      r := Ok(d.(body := lib.dumpsIndented(JObj(sample.value))));
    }
  }

  /** `generate_burp_request`. */
  method GenerateBurpRequest(verb: string, path: string, host: Json, basePath: Json, parameters: Json,
                             bodySchema: Json, definitions: Json, token: string, customHost: string, lib: PyLib)
    returns (r: Result<Generated>)
    ensures r == BurpRequest(verb, path, host, basePath, parameters, bodySchema, definitions, token, customHost, lib)
  {
    var params := Iterate(parameters);
    if params.Raises? {
      return Raises(params.exc);
    }
    var start := StartDraft(path, host, basePath, token, customHost, lib);
    var draft := ProcessParams(start, params.value, token, bodySchema, definitions, lib);
    ghost var expected := BurpRequest(verb, path, host, basePath, parameters, bodySchema, definitions, token, customHost, lib);
    assert draft.Raises? ==> expected == Raises(draft.exc);
    assert draft.Ok? ==> expected == Ok(Render(verb, draft.value, lib));
    if draft.Raises? {
      return Raises(draft.exc);
    }
    var request, requestPath := RenderRequest(verb, draft.value, lib);
    r := Ok(Generated(request, draft.value.headers, draft.value.body, requestPath));
  }

  /** The loop over the parameters. */
  method ProcessParams(start: Draft, ps: seq<Json>, token: string, bodySchema: Json, definitions: Json, lib: PyLib)
    returns (r: Result<Draft>)
    ensures r == ApplyParams(start, ps, token, bodySchema, BodyText(bodySchema, definitions, lib), lib)
  {
    var draft := start;
    var i := 0;
    while i < |ps|
      invariant 0 <= i <= |ps|
      invariant ApplyParams(start, ps[..i], token, bodySchema, BodyText(bodySchema, definitions, lib), lib) == Ok(draft)
    {
      var next := ProcessParam(draft, ps[i], token, bodySchema, definitions, lib);
      assert ps[..i + 1][..i] == ps[..i];
      if next.Raises? {
        ApplyParamsStops(start, ps, i + 1, token, bodySchema, BodyText(bodySchema, definitions, lib), lib);
        return Raises(next.exc);
      }
      draft := next.value;
      i := i + 1;
    }
    assert ps[..i] == ps;
    return Ok(draft);
  }

  /** The part after the loop: the query string, the path clean-up and the request lines. */
  method RenderRequest(verb: string, draft: Draft, lib: PyLib) returns (request: string, requestPath: string)
    ensures requestPath == FinalPath(draft, lib)
    ensures request == Join(RequestLines(verb, requestPath, draft.headers, draft.body, lib), "\n")
  {
    requestPath := draft.path;
    if draft.query != [] {
      requestPath := requestPath + "?" + lib.urlencode(draft.query);
    }
    requestPath := Replace(requestPath, "//", "/");
    var requestLines := [Upper(verb) + " " + requestPath + " HTTP/1.1"];
    var j := 0;
    while j < |draft.headers|
      invariant 0 <= j <= |draft.headers|
      invariant requestLines == [Upper(verb) + " " + requestPath + " HTTP/1.1"] + HeaderLines(draft.headers[..j], lib)
    {
      requestLines := requestLines + [draft.headers[j].0 + ": " + Str(draft.headers[j].1, lib)];
      assert HeaderLines(draft.headers[..j + 1], lib) == HeaderLines(draft.headers[..j], lib) + [draft.headers[j].0 + ": " + Str(draft.headers[j].1, lib)];
      j := j + 1;
    }
    assert draft.headers[..j] == draft.headers;
    if CarriesBody(verb, draft.body) {
      requestLines := requestLines + ["", draft.body];
    }
    assert requestLines == RequestLines(verb, requestPath, draft.headers, draft.body, lib);
    request := Join(requestLines, "\n");
  }

  // ---------------------------------------------------------------------------------------
  // save_burp_request: the file name
  // ---------------------------------------------------------------------------------------

  /** The operation id with `/` and spaces turned into `_`; only a string has `replace`. */
  function SafeOperationId(operationId: Json): Result<string> {
    if !operationId.JStr? then Raises(AttributeError)
    else Ok(Replace(Replace(operationId.s, "/", "_"), " ", "_"))
  }

  /** The sanitised id has the input's length, no `/` and no space, and differs only there. */
  lemma SafeOperationIdChars(id: string)
    ensures var r := SafeOperationId(JStr(id));
            r.Ok? && |r.value| == |id| && '/' !in r.value && ' ' !in r.value &&
            forall k :: 0 <= k < |id| ==> r.value[k] == if id[k] == '/' || id[k] == ' ' then '_' else id[k]
  {
    ReplaceChar(id, '/', '_');
    var once := Replace(id, "/", "_");
    ReplaceChar(once, ' ', '_');
  }
}
