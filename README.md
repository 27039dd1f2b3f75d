# rest-api-scanning in Dafny

This project models the core of rest-api-scanning, a set of small Python scripts that read
Swagger 2.0 / OpenAPI 3 documents. The scripts do two jobs:

- **Public-endpoint detection.** `api_endpoints_without_auth.py` and `detect_public_endpoints.py`
  walk the `paths` of a document and list the operations that need no authentication. The
  output is a list of `(METHOD, path)` pairs. The first script also renders a text report and
  adds an `https://` scheme to bare URLs.
- **Burp request generation.** `openapi_parse_v1.py`, `swagger_v1.py` and `openapi_parse.py`
  turn each operation into the raw HTTP request text that Burp Suite loads. Each one fills in
  path parameters, query strings, auth headers and a sample JSON body built from the schema.

A JSON document is the value type `Json.Json`. A Python dict is an association list that keeps
insertion order: `Json.Put` overwrites a key in place or appends it, as a dict assignment does.
The association list itself does not require distinct keys, so the lemmas about documents also
cover lists with repeated keys, which `json.load` never produces; `Json.Lookup` reads the first.
Python strings are `seq<char>`. A missing `None` string argument (a token, a custom host) is
the empty string.

Every Python operation that can fail has the failure modelled as a value:

- `Result` (`Ok` / `Raises`) with the exception Python raises: `AttributeError`, `KeyError` or `TypeError`.
- `Outcome` in `OpenApiV1`. It adds `OutOfFuel` for the unbounded `$ref` recursion.

Functions the scripts take from libraries are fields of a `Json.PyLib` record, so nothing is
assumed about their output. These are `json.dumps` (compact and indented), `repr`/`str` of a
non-string, `urlencode` and `base64.b64encode`.

Modules, one per source file plus shared pieces:

- `Text`: case mapping, `str.replace`, `join`, `split('/')[-1]`, decimal rendering.
- `Json`: the JSON value type, dict operations, Python truthiness, `or`, `[]`, `in`, iteration and `str()`.
- `Walk`: the `paths` × methods walk shared by both detectors, and selection of public operations.
- `EndpointsWithoutAuth`: `api_endpoints_without_auth.py`.
- `DetectPublic`: `detect_public_endpoints.py`.
- `PublicEndpointScenarios`: concrete documents on which the two detectors disagree.
- `OpenApiV1`: `openapi_parse_v1.py`.
- `SwaggerV1`: `swagger_v1.py`.
- `OpenApiParse`: `openapi_parse.py`.

Each loop of the modelled core is a `method` with a `while` loop. The method is proved equal to a
specification function, and the source's promises are proved as lemmas about that function.

## Model

| member | source | states |
|---|---|---|
| EndpointsWithoutAuth.DetectPublicEndpoints | api_endpoints_without_auth.py:42-72 | the nested loop returns exactly `Classify`: the (upper-cased verb, path) pairs of the public operations in document order, or the AttributeError a non-dict path item or operation raises |
| EndpointsWithoutAuth.ScanMethods | api_endpoints_without_auth.py:54-70 | one path item: raises (AttributeError) iff a recognised operation is not a dict; otherwise appends exactly the public operations of that item, in order |
| EndpointsWithoutAuth.FalsyDocumentIsEmpty | api_endpoints_without_auth.py:44-45 | an empty or falsy document gives an empty list |
| EndpointsWithoutAuth.ListedMembers | api_endpoints_without_auth.py:53-70 | an operation is listed iff it is in the walk (method key recognised case-insensitively) and the public rule holds for it |
| EndpointsWithoutAuth.ReportIsSubsequence | api_endpoints_without_auth.py:51-72 | the report is an order-preserving subsequence of all recognised operations, so never longer |
| EndpointsWithoutAuth.ReportedAreVerbs | api_endpoints_without_auth.py:55-64 | every reported method is one of the seven upper-case verbs, and every reported path is a key of `paths` |
| EndpointsWithoutAuth.NoSecurityListsEveryOperation | api_endpoints_without_auth.py:68-70 | with neither security definitions nor global security, every recognised operation is listed |
| EndpointsWithoutAuth.EmptySecurityIsPublic | api_endpoints_without_auth.py:63-64 | with security in force, an operation whose `security` is `[]` is listed |
| EndpointsWithoutAuth.NonEmptySecurityIsProtected | api_endpoints_without_auth.py:61-67 | with security in force, an operation with any other explicit `security` is not listed |
| EndpointsWithoutAuth.AbsentSecurityInherits | api_endpoints_without_auth.py:66-67 | with security in force, an operation without `security` is listed iff the global `security` is falsy |
| EndpointsWithoutAuth.FormatOutput | api_endpoints_without_auth.py:88-105 | the loop builds exactly the report lines joined by newlines |
| EndpointsWithoutAuth.OutputLines | api_endpoints_without_auth.py:90-103 | the lines `format_output` joins: the URL alone in silent mode when there are endpoints, otherwise the separator frame around the endpoint lines or the "none found" line |
| EndpointsWithoutAuth.EndpointLines | api_endpoints_without_auth.py:99-100 | one `  <METHOD> <path>` line per endpoint, in order |
| EndpointsWithoutAuth.SilentOutput | api_endpoints_without_auth.py:92-94 | in silent mode the output is the URL when there are endpoints, else empty |
| EndpointsWithoutAuth.VerboseOutputFrame | api_endpoints_without_auth.py:95-103 | the verbose report opens with a newline, the separator and the `Public endpoints in <url>:` header and ends with the separator; the lines in between are exactly `  <METHOD> <path>` for each endpoint in order, or the single `  No public endpoints found.` line when there are none |
| EndpointsWithoutAuth.WithScheme | api_endpoints_without_auth.py:159-160 | the result starts with `http://` or `https://`; a URL that already has one is unchanged, otherwise `https://` is prefixed |
| EndpointsWithoutAuth.WithSchemeIdempotent | api_endpoints_without_auth.py:159-160 | adding the scheme twice is adding it once |
| DetectPublic.DetectPublicEndpoints | detect_public_endpoints.py:8-24 | the nested loop returns exactly `Classify`: listed (verb, path) pairs in order, or AttributeError |
| DetectPublic.ScanMethods | detect_public_endpoints.py:14-22 | one path item: raises iff definitions are present and a recognised operation is not a dict; otherwise appends the public operations in order |
| DetectPublic.ListedMembers | detect_public_endpoints.py:13-22 | an operation is listed iff it is in the walk and public under the rule |
| DetectPublic.OnlyLowerCaseVerbKeys | detect_public_endpoints.py:15-16 | only exact lower-case verb keys are walked; reported paths are keys of `paths` |
| DetectPublic.NoDefinitionsListsAll | detect_public_endpoints.py:21-22 | without `securityDefinitions` every recognised operation is listed |
| DetectPublic.DefinitionsNeedEmptySecurity | detect_public_endpoints.py:18-20 | with `securityDefinitions`, an operation is listed iff its `security` is exactly `[]` |
| DetectPublic.ReportIsSubsequence | detect_public_endpoints.py:11-24 | the report is an order-preserving subsequence of all recognised operations |
| DetectPublic.IgnoresGlobalSecurityAndComponents | detect_public_endpoints.py:8-9 | changing the document's global `security` or `components` never changes the result |
| PublicEndpointScenarios.OpenDocWithoutAuth | api_endpoints_without_auth.py:53-70 | `{"paths": {"/a": {"get": {}}}}`, with no security anywhere, gives `[("GET", "/a")]` |
| PublicEndpointScenarios.OpenDocDetect | detect_public_endpoints.py:13-22 | the other detector gives the same `[("GET", "/a")]` on that document |
| PublicEndpointScenarios.DefinitionsDocWithoutAuth | api_endpoints_without_auth.py:61-67 | with `securityDefinitions` added and no global security, the operation without `security` is still reported: `[("GET", "/a")]` |
| PublicEndpointScenarios.DefinitionsDocDetect | detect_public_endpoints.py:18-20 | on that document the other detector reports nothing: `[]`, so the two detectors disagree |
| Walk.MethodOpsMembers | api_endpoints_without_auth.py:54-56 | an operation is walked in a path item iff its method key is recognised and present |
| Walk.SelectSubsequence | api_endpoints_without_auth.py:51-72 | keeping the public operations preserves their order |
| OpenApiV1.EnumHead | openapi_parse_v1.py:54 | a falsy enum gives `"example"`, a non-empty list gives its first member, and the enum head never runs out of fuel |
| OpenApiV1.ExampleValue | openapi_parse_v1.py:47-74 | `generate_example_value`: "example" for a falsy schema, AttributeError for a non-dict one, then `enum`, then the `type` chain; the recursion through `items`, `properties` and `$ref` is bounded by `fuel`, and running out is `OutOfFuel` |
| OpenApiV1.TypedExample | openapi_parse_v1.py:52-74 | the `type` chain reached when `enum` is absent: the scalar defaults, array, object, then `$ref`, else "example" |
| OpenApiV1.ItemsExample | openapi_parse_v1.py:63-65 | the one-element list of the example of `items` (`{}` when missing) |
| OpenApiV1.PropertiesExample | openapi_parse_v1.py:66-68 | the dict of each property's example; a non-dict `properties` raises AttributeError |
| OpenApiV1.ExampleFields | openapi_parse_v1.py:68 | the comprehension over the first `n` properties, inserted in declaration order, stopping at the first failure |
| OpenApiV1.RefExample | openapi_parse_v1.py:69-73 | the `$ref` branch: the example of the resolved schema, one unit of fuel further down |
| OpenApiV1.RefTarget | openapi_parse_v1.py:70-72 | `components.schemas[<last / segment>]`, `{}` when missing; AttributeError for a non-string `$ref` or non-dict registry |
| OpenApiV1.FuelMonotone | openapi_parse_v1.py:47-74 | a finished example value is the same under any larger recursion bound |
| OpenApiV1.SelfReferenceNeverFinishes | openapi_parse_v1.py:69-73 | a schema whose `$ref` names itself never finishes |
| OpenApiV1.EmptySchemaIsExample | openapi_parse_v1.py:49-50 | an empty or missing schema gives `"example"` |
| OpenApiV1.EnumWins | openapi_parse_v1.py:53-54 | when `enum` is present, the result is the enum head whatever the type |
| OpenApiV1.EnumPrecedence | openapi_parse_v1.py:52-54 | changing `type` never changes the result when `enum` is present |
| OpenApiV1.NoEnumIsTyped | openapi_parse_v1.py:53-55 | without `enum`, the result is decided by the type branches |
| OpenApiV1.ScalarExamples | openapi_parse_v1.py:55-62 | string/integer/number/boolean give their `default`, else `"example"`, 0, 0.0 or True |
| OpenApiV1.ArrayExample | openapi_parse_v1.py:63-65 | an array gives the one-element list of its items' example (`["example"]` with no items) |
| OpenApiV1.FieldsArePropertyExamples | openapi_parse_v1.py:66-68 | an object's fields are its property names in order, each with that property's example |
| OpenApiV1.ObjectExample | openapi_parse_v1.py:66-68 | an object gives a dict with exactly its properties' names, in order |
| OpenApiV1.RefIgnoredBesideHandledType | openapi_parse_v1.py:55-69 | a `$ref` next to a handled type is ignored |
| OpenApiV1.HandledTypeIgnoresRest | openapi_parse_v1.py:55-68 | for a handled type, only `type`, `default`, `items` and `properties` matter |
| OpenApiV1.RefResolution | openapi_parse_v1.py:69-73 | for any string `$ref` (with or without a `/`), the example is that of `components.schemas[<last /-segment>]`, one level of fuel down; a name not in the registry gives `"example"` |
| OpenApiV1.RefNotString | openapi_parse_v1.py:69-70 | a `$ref` that is not a string raises AttributeError (`.split` on a non-string) |
| OpenApiV1.ReplacePathParams | openapi_parse_v1.py:76-85 | the loop computes `SubstitutePath`: each `in: path` parameter's placeholder replaced by `str` of its example, in order |
| OpenApiV1.ReplaceOne | openapi_parse_v1.py:80-84 | one iteration, including the KeyError of a path parameter without `name` |
| OpenApiV1.SubstituteOne | openapi_parse_v1.py:79-84 | one iteration of `replace_path_params`: a non-dict raises AttributeError, a non-`path` parameter changes nothing, a `path` one without `name` raises KeyError, otherwise `{name}` is replaced by `str` of the example |
| OpenApiV1.NotInPathIgnored | openapi_parse_v1.py:79-80 | inserting a dict parameter that is not `in: path` anywhere in the list leaves the outcome unchanged |
| OpenApiV1.NoPathParamsKeepPath | openapi_parse_v1.py:78-85 | with no path parameters the path is returned unchanged |
| OpenApiV1.AbsentPlaceholderKeepsPath | openapi_parse_v1.py:84 | a parameter whose placeholder does not occur leaves the path unchanged |
| OpenApiV1.AuthHeaders | openapi_parse_v1.py:87-98 | at most one header; one exactly when both value and type are given and the type is bearer, apiKey or basic; its name is `X-API-Key` for apiKey and `Authorization` otherwise; bearer value is `Bearer <token>`, apiKey value is the token, basic value is `Basic ` followed by the base64 encoding of the token |
| OpenApiV1.GetAuthHeaders | openapi_parse_v1.py:89-98 | the method fills exactly `AuthHeaders` |
| OpenApiV1.HeaderLines | openapi_parse_v1.py:104-105 | one `name: value` line per header |
| OpenApiV1.CreateBurpRequest | openapi_parse_v1.py:100-121 | the method builds exactly the CRLF join of the request lines |
| OpenApiV1.RequestOpensWithRequestLine | openapi_parse_v1.py:103 | the request opens with `METHOD path HTTP/1.1`, CRLF and the Host line |
| OpenApiV1.HeaderSectionEnd | openapi_parse_v1.py:106-118 | headers end with Content-Type and Content-Length = body length iff a POST/PUT/PATCH has a body, else with `Connection: close`; then the empty line; a non-empty body is last |
| OpenApiV1.BodyFollowsBlankLine | openapi_parse_v1.py:115-118 | a non-empty body follows CRLF CRLF |
| OpenApiV1.BodilessRequestLacksBlankLine | openapi_parse_v1.py:115-121 | as written, a request without a body ends with `Connection: close` and a single CRLF, never CRLF CRLF |
| OpenApiV1.FramedBurpRequest | openapi_parse_v1.py:115-121 | the corrected request always ends its header section with CRLF CRLF and equals the script's output whenever there is a body |
| SwaggerV1.GenerateSampleBody | swagger_v1.py:18-71 | the recursive generator computes exactly `SampleBody` |
| SwaggerV1.ResolvedSchema | swagger_v1.py:26-31 | the definition named by the last `/` segment of a truthy `$ref` (`{}` when missing), or the schema itself without one |
| SwaggerV1.RequiredOf | swagger_v1.py:38 | the caller's required list unless it is falsy, else the schema's `required` |
| SwaggerV1.FillSchema | swagger_v1.py:36-71 | the body of a resolved schema: `SchemaBody` |
| SwaggerV1.SampleProperties | swagger_v1.py:40-64 | the properties loop computes `PropsBody` |
| SwaggerV1.PropSample | swagger_v1.py:42-64 | one property's value (or none) is `PropValue` |
| SwaggerV1.ArraySample | swagger_v1.py:54-61 | an array property's list is `ArrayValue` |
| SwaggerV1.AddRequired | swagger_v1.py:67-69 | the required-fields loop computes `FillRequired` |
| SwaggerV1.EmptyBodies | swagger_v1.py:20-23 | past the depth limit, or with a falsy schema or definitions, the body is `{}` |
| SwaggerV1.DanglingRefIsEmpty | swagger_v1.py:26-34 | any schema dict whose `$ref` is a non-empty string, with or without a `/` and whatever other keys it has, gives `{}` when the definition named by the last `/` segment is missing or falsy |
| SwaggerV1.PropValueProduces | swagger_v1.py:48-64 | a property yields a value iff its type is handled or it has a `$ref` |
| SwaggerV1.PropsBodyKeys | swagger_v1.py:40-64 | the body's keys are exactly the producing property names, in order, without duplicates |
| SwaggerV1.FillRequiredShape | swagger_v1.py:67-69 | the existing body is kept as a prefix; every required name becomes a key; each added entry is `sample_<name>` for a required name; distinct keys stay distinct |
| SwaggerV1.FillRequiredFails | swagger_v1.py:67-69 | the loop raises TypeError iff some required name is a list or dict (unhashable) |
| SwaggerV1.SchemaBodyShape | swagger_v1.py:36-71 | property entries first, in order; then the `sample_` entries; every required name is a key; keys are distinct |
| SwaggerV1.ScalarGivenValue | swagger_v1.py:44-53 | a scalar property takes a truthy `example`, else a non-None `default` |
| SwaggerV1.ScalarFallback | swagger_v1.py:48-53 | with neither, a string is `sample_<name>`, a number 123, a boolean True |
| SwaggerV1.LastLevelNestsEmpty | swagger_v1.py:54-64 | at the last depth level a nested object or `$ref` becomes `{}` and an array of `$ref` becomes `[{}]` |
| SwaggerV1.ParamValueRule | swagger_v1.py:103 | a required parameter gets `sample_<type>` (type defaulting to `string`); an optional one gets its default when that is truthy, and otherwise the placeholder `{{input_<name>}}` |
| SwaggerV1.ParamValue | swagger_v1.py:95-103 | the value of a query, header or path parameter, by the precedence of line 103 |
| SwaggerV1.InitialHeaders | swagger_v1.py:80-89 | the four fixed headers, the custom host winning over the document's, plus `Authorization: Bearer <token>` when a token is given |
| SwaggerV1.BodyText | swagger_v1.py:115 | the indented `json.dumps` of the sample body of the body schema with its own `required` list |
| SwaggerV1.ApplyParams | swagger_v1.py:94-115 | the parameters applied to the draft request in order; the first failing one ends the request |
| SwaggerV1.StartDraft | swagger_v1.py:76-89 | the normalised `base_path + path` and the initial headers, before any parameter |
| SwaggerV1.FinalPath | swagger_v1.py:117-122 | the path with the urlencoded query appended when there is one, then `//` collapsed |
| SwaggerV1.Render | swagger_v1.py:124-136 | the request text, headers, body and path returned for the finished draft |
| SwaggerV1.ApplyParamEffects | swagger_v1.py:101-115 | a parameter touches only the part of the request its `in` names; a query parameter appends `(name, value)` |
| SwaggerV1.ApplyParamHeaders | swagger_v1.py:105-108 | a header parameter named Authorization in any case is skipped when a token is given |
| SwaggerV1.InitialHeadersShape | swagger_v1.py:80-89 | the header dict starts with Host, User-Agent, Accept and Content-Type, and adds `Authorization: Bearer <token>` exactly when a token is given |
| SwaggerV1.TokenHeaderKept | swagger_v1.py:94-108 | no parameter can change the token's Authorization header |
| SwaggerV1.FixedHeadersStayFirst | swagger_v1.py:94-108 | the four fixed headers stay the first four keys |
| SwaggerV1.GeneratedHeaders | swagger_v1.py:73-136 | a generated request's headers start with the fixed four and keep the token header |
| SwaggerV1.HeaderLines | swagger_v1.py:128-129 | one line per header |
| SwaggerV1.RequestLayout | swagger_v1.py:125-136 | the request is the newline join of the request line and headers; a POST/PUT/PATCH/DELETE with a body adds an empty line and the body |
| SwaggerV1.ProcessParam | swagger_v1.py:95-115 | one iteration of the parameter loop is `ApplyParam` |
| SwaggerV1.ProcessParams | swagger_v1.py:94-115 | the loop folds `ApplyParam` over the parameters and stops at the first exception |
| SwaggerV1.RenderRequest | swagger_v1.py:118-134 | the final path (query appended, `//` normalised) and the joined request lines |
| SwaggerV1.GenerateBurpRequest | swagger_v1.py:73-136 | the method returns exactly `BurpRequest`: the request, headers, body and path |
| SwaggerV1.SafeOperationIdChars | swagger_v1.py:165 | the sanitised id keeps the length, has `_` wherever the id had `/` or a space and no `/` or space left, and is otherwise unchanged |
| SwaggerV1.SafeOperationId | swagger_v1.py:165 | `/` and then spaces replaced by `_`; an id that is not a string raises AttributeError |
| OpenApiParse.CreateBurpRequest | openapi_parse.py:11-28 | the method builds exactly `RawRequest` |
| OpenApiParse.RequestOpens | openapi_parse.py:12-18 | the request line, Host, the given headers in order, then User-Agent, Accept and `Connection: close` |
| OpenApiParse.BodyRequestEnds | openapi_parse.py:20-24 | a POST/PUT with a body ends with the JSON Content-Type, Content-Length = body length, an empty line and the body |
| OpenApiParse.BodilessRequestEnds | openapi_parse.py:25-26 | otherwise the request ends `Connection: close` CRLF CRLF with no body |
| OpenApiParse.QueryValue | openapi_parse.py:50-52 | a query value is the schema's non-None default, else `"example"`; a non-dict schema raises |
| OpenApiParse.CollectQueryParams | openapi_parse.py:47-53 | the loop computes `QueryParams` |
| OpenApiParse.QueryStep | openapi_parse.py:49-53 | one parameter of the query loop: `query_params[name] = value` for an `in: query` dict; KeyError without `in` or `name`, TypeError for a parameter that is not a dict or a name that is unhashable, AttributeError for a schema that is not a dict |
| OpenApiParse.FullPath | openapi_parse.py:56-58 | the path, with `?` and the urlencoded query when the query dict is non-empty |
| OpenApiParse.QueryParamsDistinct | openapi_parse.py:47-53 | the query dict never holds a name twice |
| OpenApiParse.QueryParamsNamesAreKeys | openapi_parse.py:48-53 | every `in: query` parameter has a name, and it is a key of the query dict |
| OpenApiParse.QueryParamsKeysAreNames | openapi_parse.py:48-53 | every key of the query dict is the name of some `in: query` parameter |
| OpenApiParse.QueryStepKeys | openapi_parse.py:49-53 | one parameter adds its name as a key exactly when it is a query parameter, keeps every earlier key and keeps keys distinct |
| OpenApiParse.QueryParamsValue | openapi_parse.py:47-53 | a name's value comes from the last query parameter with that name |
| OpenApiParse.ExampleFieldsOfNames | openapi_parse.py:69 | distinct property names each map to `"example"`, in order |
| OpenApiParse.ExampleFields | openapi_parse.py:69 | `{prop: "example" for prop in ...}` keyed as `json.dumps` writes the keys; TypeError for an unhashable key |
| OpenApiParse.RefBody | openapi_parse.py:66-69 | the `$ref` body: `components.schemas[<last / segment>]` (`{}` when missing), each of its property names set to "example", dumped; KeyError, TypeError or AttributeError where the subscripts and `.get` fail |
| OpenApiParse.JsonBody | openapi_parse.py:64-71 | the `application/json` body: the `$ref` body for a truthy `$ref`, else `{"example": "data"}` |
| OpenApiParse.RefMedia | openapi_parse.py:64-66 | a media dict whose schema dict holds a non-empty string `$ref` gets the body of that reference |
| OpenApiParse.JsonBodyOfRef | openapi_parse.py:64-69 | in any document whose `components.schemas[<last /-segment of the $ref>]` is a dict with a `properties` dict of distinct names, the body dumps each name set to `"example"`, in order |
| OpenApiParse.JsonBodyOfUnknownRef | openapi_parse.py:64-69 | a `$ref` naming no registered schema gives the dump of `{}` |
| OpenApiParse.JsonBodyWithoutRegistry | openapi_parse.py:66-68 | a `$ref` body in a document dict without `components`, or whose `components` lacks `schemas`, raises KeyError; a document that is not a dict raises TypeError |
| OpenApiParse.JsonBodyInline | openapi_parse.py:64-71 | any media dict whose schema dict has a missing or falsy `$ref` gives `{"example": "data"}`; a media or schema that is not a dict raises AttributeError |
| OpenApiParse.PlanBodyCases | openapi_parse.py:61-77 | no `requestBody` means no body; a Content-Type is set only with the multipart or urlencoded body |
| OpenApiParse.PlanBodyNotDict | openapi_parse.py:62-63 | a `requestBody` that is not a dict raises AttributeError |
| OpenApiParse.PlanBodyOfContent | openapi_parse.py:61-77 | for any `content` dict, JSON wins whenever `application/json` is present (its body, or its error), then multipart, then urlencoded; none of the three gives no body |
| OpenApiParse.PlanBody | openapi_parse.py:61-77 | the body and the Content-Type header an operation gets, by the first of the three content types its `requestBody` declares |
| OpenApiParse.PlainOperation | openapi_parse.py:43-80 | an operation without parameters or body writes `burp_requests/<method>_unknown_operation.txt` (when no id) holding the bodiless request for the bare path, and leaves the shared headers alone |
| OpenApiParse.Operation | openapi_parse.py:43-80 | one operation of the loop: the file name, the query dict, the body plan, then the request; the first exception ends it |
| OpenApiParse.FileName | openapi_parse.py:43-44 | `burp_requests/<method>_<operationId>.txt`, with `unknown_operation` when the id is missing |
| OpenApiParse.Assemble | openapi_parse.py:73-80 | a form body's Content-Type written into the shared headers, then the request built with the full path and the body |
| OpenApiParse.OperationSendsBody | openapi_parse.py:61-80 | a POST/PUT operation with a body sends it with a matching Content-Length |

## Left out

- File reading and writing, `argparse`, `main`, printing, the HTTP download of a document and replaying requests through a proxy (`send_to_burp`, `requests`) are I/O; they are not modelled.
- `json.load` is not modelled: documents are given as `Json` values. `json.dumps`, `urlencode`, `base64.b64encode` and `str`/`repr` of non-strings are opaque `PyLib` functions.
- Floating point is a `real` (`JFloat`), used only for the `0.0` default.
- Case mapping (`lower`, `upper`) covers ASCII letters only.
- Python treats `1`, `1.0` and `True` as one dict key, because they compare equal. The query dict of `OpenApiParse.QueryParams` compares its keys as `Json` values, where they are three different keys. This only matters for non-string parameter names.
- ExampleFields: the `{prop: "example" for prop in properties}` dict is keyed by the text `json.dumps` writes for each key (`Json.JsonKey`), not by the Python key. With `properties` given as the list `[true, "true"]` Python keeps two keys and dumps two `"true"` members, and the model merges them into one. With `[1, true]` Python keeps one key (`1 == True`), and the model keeps `"1"` and `"true"`. Property names that are strings, the only kind a `properties` dict has, are modelled exactly.
- FillRequired: a required name that is not a string is keyed by its `str()` text, so `true` becomes the key "True". Python keeps the raw value as the key. That key never equals a string key of the same text, and `json.dumps` writes it as a JSON literal ("true"). Required names that are strings, the only kind the Swagger 2.0 format allows, are modelled exactly.
- AddRequired: proved equal to `FillRequired`, so it carries the same `str()` keying of non-string required names.
- FillRequiredShape: "every required name becomes a key" is stated for the `str()` key. That is the name itself for string names but not the key Python uses for non-string ones.
- SchemaBodyShape: same `str()` keying of non-string required names as `FillRequiredShape`.
- OpenApiV1.FuelMonotone: `generate_example_value` has no depth guard, so a cyclic `$ref` recurses until Python's stack overflows. The model bounds the recursion by a `fuel` parameter and reports `OutOfFuel` instead.
- A `None` token, custom host or auth type is modelled as the empty string. Python treats both as falsy, so the branches are the same.
- `get_auth_headers` takes the document as its first argument and never reads it; `OpenApiV1.AuthHeaders` omits it.
- The per-operation driver loops of `openapi_parse_v1.py` and `swagger_v1.py` (walking operations, picking `operationId` or a `uuid`, saving files) are not modelled. Only the sanitising of the operation id is (`SwaggerV1.SafeOperationId`).
- In `swagger_v1.py` the JSON body text is computed once, as a value, before the parameter loop. `generate_sample_body` is pure, so this gives the same result as the source's per-iteration call.
- In `openapi_parse.py` the headers dict shared between operations is threaded through `OpenApiParse.Operation` as a value rather than mutated in place.
- Content-Length is `len(body)` in characters, as the source computes it, not in encoded bytes.
- Where the documented behaviour and the code differ, the model follows the code:
  - A malformed document (a path item or operation that is not a dict) raises `AttributeError` rather than giving an empty result.
  - `generate_example_value` has no guard against a cyclic `$ref`.
  - `$ref` is consulted only when `type` is not one of the handled types (`OpenApiV1.RefIgnoredBesideHandledType`).

## Findings

| source | as written | input that shows it | evidently intended | confidence | as-written member | corrected member |
|---|---|---|---|---|---|---|
| openapi_parse_v1.py:115-121 | a request without a body is joined so that it ends `Connection: close` plus a single CRLF; the blank line that ends an HTTP/1.1 header section is missing | `create_burp_request("GET", "/pets", "h", {})` with `body=None` | the header section always ends with CRLF CRLF, as section 2.1 of RFC 9112 requires and as `openapi_parse.py` does | high, not executed | OpenApiV1.BodilessRequestLacksBlankLine | OpenApiV1.FramedBurpRequest |
