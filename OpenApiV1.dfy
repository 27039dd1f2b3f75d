/**
  `openapi_parse_v1.py`: example values synthesised from OpenAPI 3 schemas, path-parameter
  substitution, authentication headers and the raw request handed to Burp Suite.
  */
module OpenApiV1 {
  import opened Text
  import opened Json

  /**
    What a call of the script can come to: a value, a raised exception, or — for
    `generate_example_value`, which has no depth guard — a `$ref` chain longer than the fuel
    the model was given.
    */
  datatype Outcome<+T> = Value(v: T) | Raised(exc: Exc) | OutOfFuel

  const Example: Json := JStr("example")

  /** The `type` values `generate_example_value` handles before it looks at `$ref`. */
  predicate HandledType(t: Json) {
    t == JStr("string") || t == JStr("integer") || t == JStr("number") || t == JStr("boolean") ||
    t == JStr("array") || t == JStr("object")
  }

  /** `schema["enum"][0] if schema["enum"] else "example"` */
  function EnumHead(enum: Json): (r: Outcome<Json>)
    ensures !Truthy(enum) ==> r == Value(Example)
    ensures enum.JArr? && enum.items != [] ==> r == Value(enum.items[0])
    ensures r.OutOfFuel? == false
  {
    if !Truthy(enum) then Value(Example)
    else match enum
      case JArr(xs) => Value(xs[0])
      case JStr(s) => Value(JStr([s[0]]))
      case JObj(_) => Raised(KeyError)
      case _ => Raised(TypeError)
  }

  /**
    `generate_example_value(schema, components)`. Every `$ref` followed spends one unit of
    `fuel`; the script itself has no bound and never returns on a cyclic `$ref`.
    */
  function ExampleValue(schema: Json, components: Json, fuel: nat): Outcome<Json>
    decreases fuel, schema, 3
  {
    if !Truthy(schema) then Value(Example)
    else if !schema.JObj? then Raised(AttributeError)
    else if "enum" in Keys(schema.fields) then EnumHead(GetOr(schema.fields, "enum", JNull))
    else TypedExample(schema, components, fuel)
  }

  /** The `type` dispatch of `generate_example_value`, reached when `enum` is absent. */
  function TypedExample(schema: Json, components: Json, fuel: nat): Outcome<Json>
    requires schema.JObj?
    decreases fuel, schema, 2
  {
    var fs := schema.fields;
    var schemaType := GetOr(fs, "type", JNull);
    if schemaType == JStr("string") then Value(GetOr(fs, "default", Example))
    else if schemaType == JStr("integer") then Value(GetOr(fs, "default", JInt(0)))
    else if schemaType == JStr("number") then Value(GetOr(fs, "default", JFloat(0.0)))
    else if schemaType == JStr("boolean") then Value(GetOr(fs, "default", JBool(true)))
    else if schemaType == JStr("array") then ItemsExample(schema, components, fuel)
    else if schemaType == JStr("object") then PropertiesExample(schema, components, fuel)
    else if "$ref" in Keys(fs) then RefExample(schema, components, fuel)
    else Value(Example)
  }

  /** `[generate_example_value(schema.get("items", {}), components)]` */
  function ItemsExample(schema: Json, components: Json, fuel: nat): Outcome<Json>
    requires schema.JObj?
    decreases fuel, schema, 1
  {
    var t := Find(schema.fields, "items");
    // a missing `items` is `{}`, whose example is "example"
    var item := if t < 0 then Value(Example) else ExampleValue(schema.fields[t].1, components, fuel);
    match item
    case Value(x) => Value(JArr([x]))
    case Raised(x) => Raised(x)
    case OutOfFuel => OutOfFuel
  }

  /** `{prop: generate_example_value(prop_schema, components) for prop, prop_schema in properties.items()}` */
  function PropertiesExample(schema: Json, components: Json, fuel: nat): Outcome<Json>
    requires schema.JObj?
    decreases fuel, schema, 1
  {
    var p := Find(schema.fields, "properties");
    if p < 0 then Value(JObj([]))
    else
      var props := schema.fields[p].1;
      if !props.JObj? then Raised(AttributeError)
      else
        match ExampleFields(props, |props.fields|, components, fuel)
        case Value(pairs) => Value(JObj(pairs))
        case Raised(x) => Raised(x)
        case OutOfFuel => OutOfFuel
  }

  /** The schema `components.schemas[<last "/" segment of ref>]`, `{}` when the name is not there. */
  function RefTarget(ref: Json, components: Json): Result<Json> {
    if !ref.JStr? || !components.JObj? then Raises(AttributeError)
    else
      var schemas := GetOr(components.fields, "schemas", JObj([]));
      if !schemas.JObj? then Raises(AttributeError)
      else Ok(GetOr(schemas.fields, LastSegment(ref.s, '/'), JObj([])))
  }

  /** The `$ref` branch: the example of the referenced schema, one unit of fuel further down. */
  function RefExample(schema: Json, components: Json, fuel: nat): Outcome<Json>
    requires schema.JObj?
    decreases fuel, schema, 1
  {
    match RefTarget(GetOr(schema.fields, "$ref", JNull), components)
    case Raises(x) => Raised(x)
    case Ok(target) => if fuel == 0 then OutOfFuel else ExampleValue(target, components, fuel - 1)
  }

  /**
    The dict comprehension over the first `n` entries of `properties.items()`: each property
    name mapped to its schema's example, inserted in declaration order.
    */
  function ExampleFields(props: Json, n: nat, components: Json, fuel: nat): Outcome<seq<(string, Json)>>
    requires props.JObj? && n <= |props.fields|
    decreases fuel, props, n
  {
    if n == 0 then Value([])
    else
      match ExampleFields(props, n - 1, components, fuel)
      case Value(acc) =>
        (match ExampleValue(props.fields[n - 1].1, components, fuel)
         case Value(x) => Value(Put(acc, props.fields[n - 1].0, x))
         case Raised(x) => Raised(x)
         case OutOfFuel => OutOfFuel)
      case Raised(x) => Raised(x)
      case OutOfFuel => OutOfFuel
  }

  /**
    More fuel never changes an outcome that was reached: the fuel only cuts off `$ref` chains,
    it never decides between two results.
    */
  lemma {:induction false} FuelMonotone(schema: Json, components: Json, fuel: nat, more: nat)
    requires fuel <= more && !ExampleValue(schema, components, fuel).OutOfFuel?
    ensures ExampleValue(schema, components, more) == ExampleValue(schema, components, fuel)
    decreases fuel, schema, 3
  {
    if Truthy(schema) && schema.JObj? && "enum" !in Keys(schema.fields) {
      TypedFuelMonotone(schema, components, fuel, more);
    }
  }

  lemma {:induction false} TypedFuelMonotone(schema: Json, components: Json, fuel: nat, more: nat)
    requires schema.JObj? && fuel <= more && !TypedExample(schema, components, fuel).OutOfFuel?
    ensures TypedExample(schema, components, more) == TypedExample(schema, components, fuel)
    decreases fuel, schema, 2
  {
    var schemaType := GetOr(schema.fields, "type", JNull);
    if HandledType(schemaType) && schemaType != JStr("array") && schemaType != JStr("object") {
    } else if schemaType == JStr("array") {
      ItemsFuelMonotone(schema, components, fuel, more);
    } else if schemaType == JStr("object") {
      PropertiesFuelMonotone(schema, components, fuel, more);
    } else if "$ref" in Keys(schema.fields) {
      assert TypedExample(schema, components, fuel) == RefExample(schema, components, fuel);
      assert TypedExample(schema, components, more) == RefExample(schema, components, more);
      RefFuelMonotone(schema, components, fuel, more);
    }
  }

  lemma {:induction false} ItemsFuelMonotone(schema: Json, components: Json, fuel: nat, more: nat)
    requires schema.JObj? && fuel <= more && !ItemsExample(schema, components, fuel).OutOfFuel?
    ensures ItemsExample(schema, components, more) == ItemsExample(schema, components, fuel)
    decreases fuel, schema, 1
  {
    var t := Find(schema.fields, "items");
    if t >= 0 {
      FuelMonotone(schema.fields[t].1, components, fuel, more);
    }
  }

  lemma {:induction false} PropertiesFuelMonotone(schema: Json, components: Json, fuel: nat, more: nat)
    requires schema.JObj? && fuel <= more && !PropertiesExample(schema, components, fuel).OutOfFuel?
    ensures PropertiesExample(schema, components, more) == PropertiesExample(schema, components, fuel)
    decreases fuel, schema, 1
  {
    var p := Find(schema.fields, "properties");
    if p >= 0 && schema.fields[p].1.JObj? {
      var props := schema.fields[p].1;
      FieldsFuelMonotone(props, |props.fields|, components, fuel, more);
    }
  }

  lemma {:induction false} RefFuelMonotone(schema: Json, components: Json, fuel: nat, more: nat)
    requires schema.JObj? && fuel <= more && !RefExample(schema, components, fuel).OutOfFuel?
    ensures RefExample(schema, components, more) == RefExample(schema, components, fuel)
    decreases fuel, schema, 1
  {
    var target := RefTarget(GetOr(schema.fields, "$ref", JNull), components);
    if target.Ok? {
      assert fuel > 0 && RefExample(schema, components, fuel) == ExampleValue(target.value, components, fuel - 1);
      FuelMonotone(target.value, components, fuel - 1, more - 1);
    }
  }

  lemma {:induction false} FieldsFuelMonotone(props: Json, n: nat, components: Json, fuel: nat, more: nat)
    requires props.JObj? && n <= |props.fields|
    requires fuel <= more && !ExampleFields(props, n, components, fuel).OutOfFuel?
    ensures ExampleFields(props, n, components, more) == ExampleFields(props, n, components, fuel)
    decreases fuel, props, n
  {
    if n > 0 {
      FieldsFuelMonotone(props, n - 1, components, fuel, more);
      if ExampleFields(props, n - 1, components, fuel).Value? {
        FuelMonotone(props.fields[n - 1].1, components, fuel, more);
      }
    }
  }

  /** A schema that refers to itself: `{"$ref": "#/components/schemas/Node"}` under `Node`. */
  const SelfRef: Json := JObj([("$ref", JStr("#/components/schemas/Node"))])
  const SelfRefComponents: Json := JObj([("schemas", JObj([("Node", SelfRef)]))])

  /** On a cyclic `$ref` the script recurses without end: no amount of fuel reaches a result. */
  lemma {:induction false} SelfReferenceNeverFinishes(fuel: nat)
    ensures ExampleValue(SelfRef, SelfRefComponents, fuel) == OutOfFuel
  {
    LastSegmentAfter("#/components/schemas", '/', "Node");
    assert "#/components/schemas/Node" == "#/components/schemas" + ['/'] + "Node";
    assert Keys(SelfRef.fields) == ["$ref"];
    assert GetOr(SelfRef.fields, "type", JNull) == JNull;
    assert RefTarget(GetOr(SelfRef.fields, "$ref", JNull), SelfRefComponents) == Ok(SelfRef);
    assert ExampleValue(SelfRef, SelfRefComponents, fuel) == RefExample(SelfRef, SelfRefComponents, fuel);
    if fuel > 0 {
      SelfReferenceNeverFinishes(fuel - 1);
    }
  }

  /** A non-empty schema without `enum` goes to the `type` dispatch. */
  lemma NoEnumIsTyped(schema: Json, components: Json, fuel: nat)
    requires schema.JObj? && schema.fields != [] && "enum" !in Keys(schema.fields)
    ensures ExampleValue(schema, components, fuel) == TypedExample(schema, components, fuel)
  {
  }

  /** An absent, null or empty schema gives "example". */
  lemma EmptySchemaIsExample(schema: Json, components: Json, fuel: nat)
    requires !Truthy(schema)
    ensures ExampleValue(schema, components, fuel) == Value(Example)
  {
  }

  /** With an `enum`, the result is the enum's head, or "example" for an empty enum. */
  lemma EnumWins(fs: seq<(string, Json)>, components: Json, fuel: nat)
    requires "enum" in Keys(fs)
    ensures ExampleValue(JObj(fs), components, fuel) == EnumHead(GetOr(fs, "enum", JNull))
  {
  }

  /** `enum` takes precedence over `type`: replacing the `type` changes nothing. */
  lemma EnumPrecedence(fs: seq<(string, Json)>, components: Json, fuel: nat, t: Json)
    requires "enum" in Keys(fs)
    ensures ExampleValue(JObj(Put(fs, "type", t)), components, fuel) == ExampleValue(JObj(fs), components, fuel)
  {
    var fs' := Put(fs, "type", t);
    PutLookup(fs, "type", t, "enum");
    PutKeys(fs, "type", t);
    EnumWins(fs, components, fuel);
    EnumWins(fs', components, fuel);
  }

  /** Scalar types without `enum`: their `default`, or "example", 0, 0.0 and true. */
  lemma ScalarExamples(fs: seq<(string, Json)>, components: Json, fuel: nat)
    requires fs != [] && "enum" !in Keys(fs)
    ensures var r := ExampleValue(JObj(fs), components, fuel);
            var t := GetOr(fs, "type", JNull);
            (t == JStr("string") ==> r == Value(GetOr(fs, "default", Example))) &&
            (t == JStr("integer") ==> r == Value(GetOr(fs, "default", JInt(0)))) &&
            (t == JStr("number") ==> r == Value(GetOr(fs, "default", JFloat(0.0)))) &&
            (t == JStr("boolean") ==> r == Value(GetOr(fs, "default", JBool(true))))
  {
  }

  /** The `array` branch reads `items` by lookup: it gives a one-element list of its example. */
  lemma ItemsByLookup(schema: Json, components: Json, fuel: nat)
    requires schema.JObj?
    ensures var r := ItemsExample(schema, components, fuel);
            match Lookup(schema.fields, "items")
            case None => r == Value(JArr([Example]))
            case Some(items) =>
              match ExampleValue(items, components, fuel)
              case Value(x) => r == Value(JArr([x]))
              case Raised(x) => r == Raised(x)
              case OutOfFuel => r == OutOfFuel
  {
  }

  /** An `array` schema gives a one-element list: the example of `items`, or "example". */
  lemma ArrayExample(fs: seq<(string, Json)>, components: Json, fuel: nat)
    requires fs != [] && "enum" !in Keys(fs) && GetOr(fs, "type", JNull) == JStr("array")
    ensures var r := ExampleValue(JObj(fs), components, fuel);
            match Lookup(fs, "items")
            case None => r == Value(JArr([Example]))
            case Some(items) =>
              match ExampleValue(items, components, fuel)
              case Value(x) => r == Value(JArr([x]))
              case Raised(x) => r == Raised(x)
              case OutOfFuel => r == OutOfFuel
  {
    assert ExampleValue(JObj(fs), components, fuel) == ItemsExample(JObj(fs), components, fuel);
    ItemsByLookup(JObj(fs), components, fuel);
  }

  /**
    The fields synthesised for an object are the declared properties, in declaration order,
    each holding its own schema's example.
    */
  lemma {:induction false} FieldsArePropertyExamples(props: Json, n: nat, components: Json, fuel: nat)
    requires props.JObj? && n <= |props.fields| && DistinctKeys(props.fields)
    ensures var r := ExampleFields(props, n, components, fuel);
            r.Value? ==>
              |r.v| == n &&
              forall i :: 0 <= i < n ==>
                r.v[i].0 == props.fields[i].0 && ExampleValue(props.fields[i].1, components, fuel) == Value(r.v[i].1)
    decreases n
  {
    if n > 0 {
      FieldsArePropertyExamples(props, n - 1, components, fuel);
      var prev := ExampleFields(props, n - 1, components, fuel);
      if prev.Value? {
        var acc := prev.v;
        var k := props.fields[n - 1].0;
        match ExampleValue(props.fields[n - 1].1, components, fuel)
        case Value(x) =>
          PutAppends(acc, k, x);
        case Raised(_) =>
        case OutOfFuel =>
      }
    }
  }

  /** The `object` branch reads `properties` by lookup. */
  lemma PropertiesByLookup(schema: Json, components: Json, fuel: nat)
    requires schema.JObj?
    ensures PropertiesExample(schema, components, fuel) ==
              match Lookup(schema.fields, "properties")
              case None => Value(JObj([]))
              case Some(props) =>
                if !props.JObj? then Raised(AttributeError)
                else match ExampleFields(props, |props.fields|, components, fuel)
                  case Value(pairs) => Value(JObj(pairs))
                  case Raised(x) => Raised(x)
                  case OutOfFuel => OutOfFuel
  {
  }

  /** An `object` schema gives a dict whose keys are exactly the declared property names, in order. */
  lemma ObjectExample(fs: seq<(string, Json)>, props: seq<(string, Json)>, components: Json, fuel: nat)
    requires fs != [] && "enum" !in Keys(fs) && GetOr(fs, "type", JNull) == JStr("object")
    requires Lookup(fs, "properties") == Some(JObj(props)) && DistinctKeys(props)
    requires ExampleValue(JObj(fs), components, fuel).Value?
    ensures var x := ExampleValue(JObj(fs), components, fuel).v;
            x.JObj? && Keys(x.fields) == Keys(props) &&
            forall i :: 0 <= i < |props| ==> ExampleValue(props[i].1, components, fuel) == Value(x.fields[i].1)
  {
    assert ExampleValue(JObj(fs), components, fuel) == PropertiesExample(JObj(fs), components, fuel);
    PropertiesByLookup(JObj(fs), components, fuel);
    FieldsArePropertyExamples(JObj(props), |props|, components, fuel);
  }

  /**
    `$ref` is followed only when `enum` is absent and `type` is none of the handled ones:
    adding or changing a `$ref` next to a handled `type` changes nothing.
    */
  lemma RefIgnoredBesideHandledType(fs: seq<(string, Json)>, components: Json, fuel: nat, ref: Json)
    requires "enum" !in Keys(fs) && HandledType(GetOr(fs, "type", JNull))
    ensures ExampleValue(JObj(Put(fs, "$ref", ref)), components, fuel) == ExampleValue(JObj(fs), components, fuel)
  {
    var fs' := Put(fs, "$ref", ref);
    PutKeys(fs, "$ref", ref);
    PutLookup(fs, "$ref", ref, "type");
    PutLookup(fs, "$ref", ref, "default");
    PutLookup(fs, "$ref", ref, "items");
    PutLookup(fs, "$ref", ref, "properties");
    assert "type" in Keys(fs);
    assert fs != [] && fs' != [] && "enum" !in Keys(fs');
    HandledTypeIgnoresRest(JObj(fs'), JObj(fs), components, fuel);
    NoEnumIsTyped(JObj(fs), components, fuel);
    NoEnumIsTyped(JObj(fs'), components, fuel);
  }

  /** Under a handled `type`, only `type`, `default`, `items` and `properties` are read. */
  lemma HandledTypeIgnoresRest(s1: Json, s2: Json, components: Json, fuel: nat)
    requires s1.JObj? && s2.JObj?
    requires HandledType(GetOr(s2.fields, "type", JNull))
    requires Lookup(s1.fields, "type") == Lookup(s2.fields, "type")
    requires Lookup(s1.fields, "default") == Lookup(s2.fields, "default")
    requires Lookup(s1.fields, "items") == Lookup(s2.fields, "items")
    requires Lookup(s1.fields, "properties") == Lookup(s2.fields, "properties")
    ensures TypedExample(s1, components, fuel) == TypedExample(s2, components, fuel)
  {
    var schemaType := GetOr(s2.fields, "type", JNull);
    assert GetOr(s1.fields, "type", JNull) == schemaType;
    if schemaType == JStr("array") {
      ItemsByLookup(s1, components, fuel);
      ItemsByLookup(s2, components, fuel);
    } else if schemaType == JStr("object") {
      PropertiesByLookup(s1, components, fuel);
      PropertiesByLookup(s2, components, fuel);
    } else {
      assert forall d :: GetOr(s1.fields, "default", d) == GetOr(s2.fields, "default", d);
    }
  }

  /**
    Otherwise a string `$ref` names `components.schemas[<last "/" segment>]` and the example is
    that schema's; a name not in the registry gives "example".
    */
  lemma RefResolution(fs: seq<(string, Json)>, components: Json, fuel: nat, ref: string)
    requires "enum" !in Keys(fs) && !HandledType(GetOr(fs, "type", JNull))
    requires Lookup(fs, "$ref") == Some(JStr(ref))
    requires components.JObj? && GetOr(components.fields, "schemas", JObj([])).JObj? && fuel > 0
    ensures var schemas := GetOr(components.fields, "schemas", JObj([])).fields;
            ExampleValue(JObj(fs), components, fuel) ==
              ExampleValue(GetOr(schemas, LastSegment(ref, '/'), JObj([])), components, fuel - 1)
    ensures LastSegment(ref, '/') !in Keys(GetOr(components.fields, "schemas", JObj([])).fields) ==>
              ExampleValue(JObj(fs), components, fuel) == Value(Example)
  {
    var schemas := GetOr(components.fields, "schemas", JObj([])).fields;
    var target := GetOr(schemas, LastSegment(ref, '/'), JObj([]));
    assert "$ref" in Keys(fs) && fs != [];
    assert RefTarget(GetOr(fs, "$ref", JNull), components) == Ok(target);
    assert ExampleValue(JObj(fs), components, fuel) == RefExample(JObj(fs), components, fuel);
  }

  /**
    A `$ref` that is not a string fails on `.split`, whatever the registry holds.
    */
  lemma RefNotString(fs: seq<(string, Json)>, components: Json, fuel: nat)
    requires "enum" !in Keys(fs) && !HandledType(GetOr(fs, "type", JNull))
    requires "$ref" in Keys(fs) && !GetOr(fs, "$ref", JNull).JStr?
    ensures ExampleValue(JObj(fs), components, fuel) == Raised(AttributeError)
  {
    assert fs != [];
    assert ExampleValue(JObj(fs), components, fuel) == RefExample(JObj(fs), components, fuel);
  }

  /** The placeholder `f"{{{param_name}}}"` a path parameter replaces. */
  function Placeholder(name: Json, lib: PyLib): (p: string)
    ensures |p| >= 2 && p[0] == '{' && p[|p| - 1] == '}'
  {
    "{" + Str(name, lib) + "}"
  }

  /** One iteration of `replace_path_params` on the current `result`. */
  function SubstituteOne(result: string, param: Json, components: Json, fuel: nat, lib: PyLib): Outcome<string> {
    if !param.JObj? then Raised(AttributeError)
    else if GetOr(param.fields, "in", JNull) != JStr("path") then Value(result)
    else
      match Lookup(param.fields, "name")
      case None => Raised(KeyError)
      case Some(name) =>
        match ExampleValue(GetOr(param.fields, "schema", JObj([])), components, fuel)
        case Value(x) => Value(Replace(result, Placeholder(name, lib), Str(x, lib)))
        case Raised(e) => Raised(e)
        case OutOfFuel => OutOfFuel
  }

  /** `replace_path_params(path, parameters, components)`: the parameters applied in order. */
  function SubstitutePath(path: string, params: seq<Json>, components: Json, fuel: nat, lib: PyLib): Outcome<string> {
    if params == [] then Value(path)
    else
      match SubstitutePath(path, params[..|params| - 1], components, fuel, lib)
      case Value(result) => SubstituteOne(result, params[|params| - 1], components, fuel, lib)
      case Raised(e) => Raised(e)
      case OutOfFuel => OutOfFuel
  }

  /** Once a parameter raises (or runs out of fuel), the later ones do not change the outcome. */
  lemma {:induction false} SubstitutePathStops(path: string, params: seq<Json>, i: nat, components: Json, fuel: nat, lib: PyLib)
    requires i <= |params| && !SubstitutePath(path, params[..i], components, fuel, lib).Value?
    ensures SubstitutePath(path, params, components, fuel, lib) == SubstitutePath(path, params[..i], components, fuel, lib)
    decreases |params|
  {
    if i < |params| {
      var init := params[..|params| - 1];
      assert init[..i] == params[..i];
      SubstitutePathStops(path, init, i, components, fuel, lib);
    } else {
      assert params[..i] == params;
    }
  }

  /** The loop of `replace_path_params`, reassigning `result` parameter by parameter. */
  method ReplacePathParams(path: string, parameters: seq<Json>, components: Json, fuel: nat, lib: PyLib)
    returns (r: Outcome<string>)
    ensures r == SubstitutePath(path, parameters, components, fuel, lib)
  {
    var result := path;
    var i := 0;
    while i < |parameters|
      invariant 0 <= i <= |parameters|
      invariant SubstitutePath(path, parameters[..i], components, fuel, lib) == Value(result)
    {
      assert parameters[..i + 1][..i] == parameters[..i];
      var step := ReplaceOne(result, parameters[i], components, fuel, lib);
      if !step.Value? {
        SubstitutePathStops(path, parameters, i + 1, components, fuel, lib);
        return step;
      }
      result := step.v;
      i := i + 1;
    }
    assert parameters[..|parameters|] == parameters;
    return Value(result);
  }

  /** The body of the loop of `replace_path_params` for one parameter. */
  method ReplaceOne(result: string, param: Json, components: Json, fuel: nat, lib: PyLib) returns (r: Outcome<string>)
    ensures r == SubstituteOne(result, param, components, fuel, lib)
  {
    if !param.JObj? {
      return Raised(AttributeError);
    }
    r := Value(result);
    if GetOr(param.fields, "in", JNull) == JStr("path") {
      var paramName := Lookup(param.fields, "name");
      if paramName.None? {
        return Raised(KeyError);
      }
      var schema := GetOr(param.fields, "schema", JObj([]));
      var value := ExampleValue(schema, components, fuel);
      match value {
        case Raised(e) => return Raised(e);
        case OutOfFuel => return OutOfFuel;
        case Value(x) => r := Value(Replace(result, Placeholder(paramName.value, lib), Str(x, lib)));
      }
    }
  }

  /** A parameter that is a dict not marked `in: path`. */
  predicate NotInPath(param: Json) {
    param.JObj? && GetOr(param.fields, "in", JNull) != JStr("path")
  }

  /** Without path parameters the path comes back unchanged. */
  lemma {:induction false} NoPathParamsKeepPath(path: string, params: seq<Json>, components: Json, fuel: nat, lib: PyLib)
    requires forall i :: 0 <= i < |params| ==> NotInPath(params[i])
    ensures SubstitutePath(path, params, components, fuel, lib) == Value(path)
  {
    if params != [] {
      NoPathParamsKeepPath(path, params[..|params| - 1], components, fuel, lib);
    }
  }

  /** Inserting a parameter that is not `in: path` anywhere in the list leaves the outcome unchanged. */
  lemma {:induction false} NotInPathIgnored(path: string, before: seq<Json>, param: Json, after: seq<Json>,
                                            components: Json, fuel: nat, lib: PyLib)
    requires NotInPath(param)
    ensures SubstitutePath(path, before + [param] + after, components, fuel, lib) ==
            SubstitutePath(path, before + after, components, fuel, lib)
    decreases |after|
  {
    if after == [] {
      assert before + [param] + after == before + [param];
      assert before + after == before;
      SkipNotInPath(path, before, param, components, fuel, lib);
    } else {
      var init := after[..|after| - 1];
      var last := after[|after| - 1];
      NotInPathIgnored(path, before, param, init, components, fuel, lib);
      assert before + [param] + after == (before + [param] + init) + [last];
      assert before + after == (before + init) + [last];
      SameThenSame(path, before + [param] + init, before + init, last, components, fuel, lib);
    }
  }

  /** A last parameter that is not `in: path` changes nothing. */
  lemma SkipNotInPath(path: string, params: seq<Json>, param: Json, components: Json, fuel: nat, lib: PyLib)
    requires NotInPath(param)
    ensures SubstitutePath(path, params + [param], components, fuel, lib) == SubstitutePath(path, params, components, fuel, lib)
  {
    assert (params + [param])[..|params|] == params;
  }

  /** Two lists with the same outcome still have the same outcome after one more parameter. */
  lemma SameThenSame(path: string, xs: seq<Json>, ys: seq<Json>, param: Json, components: Json, fuel: nat, lib: PyLib)
    requires SubstitutePath(path, xs, components, fuel, lib) == SubstitutePath(path, ys, components, fuel, lib)
    ensures SubstitutePath(path, xs + [param], components, fuel, lib) == SubstitutePath(path, ys + [param], components, fuel, lib)
  {
    assert (xs + [param])[..|xs|] == xs;
    assert (ys + [param])[..|ys|] == ys;
  }

  /** A path parameter whose placeholder does not occur in the path changes nothing. */
  lemma AbsentPlaceholderKeepsPath(result: string, param: Json, components: Json, fuel: nat, lib: PyLib)
    requires param.JObj? && Lookup(param.fields, "name").Some?
    requires !IsSubstring(Placeholder(Lookup(param.fields, "name").value, lib), result)
    requires ExampleValue(GetOr(param.fields, "schema", JObj([])), components, fuel).Value?
    ensures SubstituteOne(result, param, components, fuel, lib) == Value(result)
  {
    var name := Lookup(param.fields, "name").value;
    var x := ExampleValue(GetOr(param.fields, "schema", JObj([])), components, fuel).v;
    ReplaceAbsent(result, Placeholder(name, lib), Str(x, lib));
  }

  /**
    `get_auth_headers(openapi_data, auth_value, auth_type)`: at most one header, and none unless
    both the value and a recognised type are given. `None` is the empty string here, and the
    document argument is not read.
    */
  function AuthHeaders(authValue: string, authType: string, lib: PyLib): (h: seq<(string, string)>)
    ensures |h| <= 1
    ensures h != [] <==> authValue != "" && authType in {"bearer", "apiKey", "basic"}
    ensures h != [] ==> h[0].0 == (if authType == "apiKey" then "X-API-Key" else "Authorization")
    ensures authType == "bearer" && h != [] ==> h[0].1 == "Bearer " + authValue
    ensures authType == "apiKey" && h != [] ==> h[0].1 == authValue
    ensures authType == "basic" && h != [] ==> h[0].1 == "Basic " + lib.b64encode(authValue)
  {
    if authValue == "" || authType == "" then []
    else if authType == "bearer" then [("Authorization", "Bearer " + authValue)]
    else if authType == "apiKey" then [("X-API-Key", authValue)]
    else if authType == "basic" then [("Authorization", "Basic " + lib.b64encode(authValue))]
    else []
  }

  /** The script's body of `get_auth_headers`, filling a fresh `headers` dict. */
  method GetAuthHeaders(authValue: string, authType: string, lib: PyLib) returns (headers: seq<(string, string)>)
    ensures headers == AuthHeaders(authValue, authType, lib)
  {
    headers := [];
    if authValue != "" && authType != "" {
      if authType == "bearer" {
        headers := Put(headers, "Authorization", "Bearer " + authValue);
      } else if authType == "apiKey" {
        headers := Put(headers, "X-API-Key", authValue);
      } else if authType == "basic" {
        var encoded := lib.b64encode(authValue);
        headers := Put(headers, "Authorization", "Basic " + encoded);
      }
    }
  }

  const CRLF: string := "\r\n"

  /** `f"{header}: {value}"` for each header, in insertion order. */
  function HeaderLines(headers: seq<(string, string)>): (lines: seq<string>)
    ensures |lines| == |headers|
  {
    seq(|headers|, i requires 0 <= i < |headers| => headers[i].0 + ": " + headers[i].1)
  }

  const FixedLines: seq<string> := [
    "User-Agent: Mozilla/5.0 (Windows NT 10.0; Win64; x64) AppleWebKit/537.36",
    "Accept: application/json",
    "Connection: close"]

  /** `method.upper() in ["POST", "PUT", "PATCH"] and body` */
  predicate DeclaresBody(verb: string, body: string) {
    Upper(verb) in ["POST", "PUT", "PATCH"] && body != ""
  }

  /** The request line and header lines, up to (not including) the empty line. */
  function HeadLines(verb: string, path: string, host: string, headers: seq<(string, string)>, body: string,
                     contentType: string): seq<string>
  {
    [Upper(verb) + " " + path + " HTTP/1.1", "Host: " + host] + HeaderLines(headers) + FixedLines +
    (if DeclaresBody(verb, body) then ["Content-Type: " + contentType, "Content-Length: " + NatToString(|body|)]
     else [])
  }

  /** The list `request_lines` that `create_burp_request` joins; an absent body is "". */
  function RequestLines(verb: string, path: string, host: string, headers: seq<(string, string)>, body: string,
                        contentType: string): seq<string>
  {
    HeadLines(verb, path, host, headers, body, contentType) + [""] + (if body != "" then [body] else [])
  }

  /** `create_burp_request(method, path, host, headers, body, content_type)` as written. */
  function BurpRequest(verb: string, path: string, host: string, headers: seq<(string, string)>, body: string,
                       contentType: string): string
  {
    Join(RequestLines(verb, path, host, headers, body, contentType), CRLF)
  }

  /** `create_burp_request`, appending to `request_lines` and joining them with CRLF. */
  method CreateBurpRequest(verb: string, path: string, host: string, headers: seq<(string, string)>, body: string,
                           contentType: string) returns (request: string)
    ensures request == BurpRequest(verb, path, host, headers, body, contentType)
  {
    var requestLines := [Upper(verb) + " " + path + " HTTP/1.1", "Host: " + host];
    var i := 0;
    while i < |headers|
      invariant 0 <= i <= |headers|
      invariant requestLines == [Upper(verb) + " " + path + " HTTP/1.1", "Host: " + host] + HeaderLines(headers[..i])
    {
      assert HeaderLines(headers[..i + 1]) == HeaderLines(headers[..i]) + [headers[i].0 + ": " + headers[i].1];
      requestLines := requestLines + [headers[i].0 + ": " + headers[i].1];
      i := i + 1;
    }
    assert headers[..i] == headers;
    requestLines := requestLines + ["User-Agent: Mozilla/5.0 (Windows NT 10.0; Win64; x64) AppleWebKit/537.36"];
    requestLines := requestLines + ["Accept: application/json"];
    requestLines := requestLines + ["Connection: close"];
    if Upper(verb) in ["POST", "PUT", "PATCH"] && body != "" {
      requestLines := requestLines + ["Content-Type: " + contentType];
      requestLines := requestLines + ["Content-Length: " + NatToString(|body|)];
    }
    requestLines := requestLines + [""];
    if body != "" {
      requestLines := requestLines + [body];
    }
    assert requestLines == RequestLines(verb, path, host, headers, body, contentType);
    request := Join(requestLines, CRLF);
  }

  /** The request opens with the request line and the `Host` header. */
  lemma RequestOpensWithRequestLine(verb: string, path: string, host: string, headers: seq<(string, string)>,
                                    body: string, contentType: string)
    ensures StartsWith(BurpRequest(verb, path, host, headers, body, contentType),
                       Upper(verb) + " " + path + " HTTP/1.1" + CRLF + "Host: " + host)
  {
    var lines := RequestLines(verb, path, host, headers, body, contentType);
    assert lines[0] == Upper(verb) + " " + path + " HTTP/1.1" && lines[1] == "Host: " + host;
    JoinStartsWith(lines, CRLF);
    assert Upper(verb) + " " + path + " HTTP/1.1" + CRLF + "Host: " + host == lines[0] + CRLF + lines[1];
  }

  /**
    The header section ends with `Content-Length: len(body)` after `Content-Type` exactly when a
    POST, PUT or PATCH carries a body, and with `Connection: close` otherwise; then comes the
    empty segment, and a non-empty body (for any method) is the last segment.
    */
  lemma HeaderSectionEnd(verb: string, path: string, host: string, headers: seq<(string, string)>,
                         body: string, contentType: string)
    ensures var lines := RequestLines(verb, path, host, headers, body, contentType);
            var k := |lines| - (if body != "" then 2 else 1);
            2 <= k - 1 && lines[k] == "" &&
            (body != "" ==> lines[k + 1] == body) &&
            (DeclaresBody(verb, body) ==>
               lines[k - 1] == "Content-Length: " + NatToString(|body|) && lines[k - 2] == "Content-Type: " + contentType) &&
            (!DeclaresBody(verb, body) ==> lines[k - 1] == "Connection: close")
  {
  }

  /** A non-empty body follows the headers after an empty line. */
  lemma BodyFollowsBlankLine(verb: string, path: string, host: string, headers: seq<(string, string)>,
                             body: string, contentType: string)
    requires body != ""
    ensures EndsWith(BurpRequest(verb, path, host, headers, body, contentType), CRLF + CRLF + body)
  {
    var head := HeadLines(verb, path, host, headers, body, contentType);
    JoinSnoc(head, "", CRLF);
    JoinSnoc(head + [""], body, CRLF);
    assert RequestLines(verb, path, host, headers, body, contentType) == head + [""] + [body];
    var r := Join(head, CRLF) + CRLF + "" + CRLF + body;
    assert r[|r| - |CRLF + CRLF + body|..] == CRLF + CRLF + body;
  }

  /**
    As written, a request without a body ends right after `Connection: close` and one CRLF:
    the empty line that ends an HTTP/1.1 header section (RFC 9112 section 2.1) is missing.
    */
  lemma BodilessRequestLacksBlankLine(verb: string, path: string, host: string, headers: seq<(string, string)>,
                                      contentType: string)
    ensures var r := BurpRequest(verb, path, host, headers, "", contentType);
            EndsWith(r, "Connection: close" + CRLF) && !EndsWith(r, CRLF + CRLF)
  {
    var head := HeadLines(verb, path, host, headers, "", contentType);
    var init := head[..|head| - 1];
    assert head == init + ["Connection: close"];
    JoinSnoc(init, "Connection: close", CRLF);
    JoinSnoc(head, "", CRLF);
    assert RequestLines(verb, path, host, headers, "", contentType) == head + [""];
    var r := Join(init, CRLF) + CRLF + "Connection: close" + CRLF + "";
    assert r[|r| - |"Connection: close" + CRLF|..] == "Connection: close" + CRLF;
    assert r[|r| - 3] == 'e';
  }

  /**
    The request the script evidently means to write: the header section always closes with an
    empty line, so the text ends with CRLF CRLF and the body (empty or not), and it agrees with
    the script whenever there is a body.
    */
  function FramedBurpRequest(verb: string, path: string, host: string, headers: seq<(string, string)>,
                             body: string, contentType: string): (r: string)
    ensures EndsWith(r, CRLF + CRLF + body)
    ensures body != "" ==> r == BurpRequest(verb, path, host, headers, body, contentType)
  {
    var head := HeadLines(verb, path, host, headers, body, contentType);
    JoinSnoc(head, "", CRLF);
    JoinSnoc(head + [""], body, CRLF);
    assert head + ["", body] == head + [""] + [body];
    var r := Join(head, CRLF) + CRLF + "" + CRLF + body;
    assert r[|r| - |CRLF + CRLF + body|..] == CRLF + CRLF + body;
    Join(head + ["", body], CRLF)
  }
}
