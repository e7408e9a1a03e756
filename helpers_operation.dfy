/** What the documentation generator reads about one HTTP operation of a
    dereferenced OpenAPI document (`src/docgen/helpers.js`): where a StackQL
    method points, the operation's descriptions, request body and response
    properties, and its parameters split into required and optional ones with
    the variables of the first server merged in. */
module DocOperation {
  import opened Base
  import opened Text
  import opened JsonModel
  import opened JsonText
  import opened DocHelpers

  const TypeError := "TypeError"

  /** What `getHttpOperationForSqlVerb` returns. */
  datatype OpRef = OpRef(path: string, httpVerb: string, mediaType: Option<Json>,
                         docKey: Option<Json>, objectKey: Json, methodName: string)

  /** `getHttpOperationForSqlVerb(sqlVerbRef, resourceData)`: the method is the
      last `/` segment of the reference; its `operation.$ref` gives the path
      and verb, its `response` the media type, document key and object key.
      A reference or `$ref` that is not a string, and a missing method,
      operation or response, throw. */
  function OpForSqlVerb(sqlVerbRef: Option<Json>, resourceData: Json): (r: Result<OpRef>)
    ensures r.Ok? ==> sqlVerbRef.Some? && sqlVerbRef.value.Str?
    ensures r.Ok? ==> r.value.methodName == LastSegment(sqlVerbRef.value.s, '/') && '/' !in r.value.methodName
    ensures r.Ok? ==> TruthyOpt(Get(resourceData, "methods"))
  {
    if sqlVerbRef.None? || !sqlVerbRef.value.Str? then Err(TypeError + ": sqlVerbRef.split is not a function")
    else
      var parts := Split(sqlVerbRef.value.s, '/');
      var methodName := LastSegment(sqlVerbRef.value.s, '/');
      assert methodName == parts[|parts| - 1];
      var methods :- Member(resourceData, "methods");
      var methodObj :- Read(methods, methodName);
      var operation :- Read(methodObj, "operation");
      var ref :- Read(operation, "$ref");
      if ref.None? || !ref.value.Str? then Err(TypeError + ": $ref.split is not a function")
      else
        var (path, httpVerb) := DecodeOpRef(ref.value.s);
        var response := Get(methodObj.value, "response");
        if response.None? || response.value.Null? then Err(TypeError + ": cannot read properties of undefined (reading 'mediaType')")
        else
          var resp := response.value;
          Ok(OpRef(path, httpVerb, Get(resp, "mediaType"), Get(resp, "openAPIDocKey"),
                   Or(Get(resp, "objectKey"), Bool(false)), methodName))
  }

  /** `j?.k1?.k2 ...`: `undefined` as soon as a step reads from `null` or
      finds nothing. */
  function Chain(j: Json, ks: seq<string>): Option<Json>
    decreases |ks|
  {
    if ks == [] then Some(j)
    else if j.Null? then None
    else
      match Get(j, ks[0])
      case None => None
      case Some(v) => Chain(v, ks[1..])
  }

  /** `x ?? dflt`. */
  function Nullish(x: Option<Json>, dflt: Json): Json
  {
    if x.None? || x.value.Null? then dflt else x.value
  }

  /** `dereferencedAPI.paths[path][httpVerb]`, which must be truthy. */
  function OperationOf(api: Json, path: string, verb: string): (r: Result<Json>)
    ensures r.Ok? ==> Truthy(r.value)
    ensures r.Ok? <==> !api.Null? && TruthyOpt(Get(api, "paths")) && TruthyOpt(Get(Get(api, "paths").value, path))
                       && TruthyOpt(Get(Get(Get(api, "paths").value, path).value, verb))
  {
    var paths :- Member(api, "paths");
    var item :- Read(paths, path);
    if !TruthyOpt(item) then Err("Path '" + path + "' not found in dereferencedAPI.paths")
    else
      var op := Get(item.value, verb);
      if !TruthyOpt(op) then Err("HTTP verb '" + verb + "' not found for path '" + path + "'")
      else Ok(op.value)
  }

  /** The request body of an operation: the schema of its first content type
      as is when it is a `$ref` or has no `properties`, otherwise just its
      `properties` and `required` list; `{}` when there is no such schema. */
  function RequestBodyOf(op: Json): (r: Result<Json>)
    ensures r.Ok? && !TruthyOpt(Get(op, "requestBody")) ==> r.value == Obj([])
  {
    var rb := Get(op, "requestBody");
    if !TruthyOpt(rb) then Ok(Obj([]))
    else
      var content := Get(rb.value, "content");
      if !TruthyOpt(content) then Ok(Obj([]))
      else
        var types := Keys(Entries(content.value));
        if types == [] then Ok(Obj([]))
        else
          var schema :- Read(Get(content.value, types[0]), "schema");
          if !TruthyOpt(schema) then Ok(Obj([]))
          else if TruthyOpt(Get(schema.value, "$ref")) then Ok(schema.value)
          else if TruthyOpt(Get(schema.value, "properties")) then
            Ok(Obj([Entry("properties", Get(schema.value, "properties").value),
                    Entry("required", Or(Get(schema.value, "required"), Arr([])))]))
          else Ok(schema.value)
  }

  /** `responses[openAPIDocKey]` when the operation has that response. */
  function ResponseObj(op: Json, docKey: string): Option<Json>
  {
    var responses := Get(op, "responses");
    if !TruthyOpt(responses) then None
    else
      var resp := Get(responses.value, docKey);
      if TruthyOpt(resp) then resp else None
  }

  /** `responseObj.content[mediaType].schema` when every step is present. */
  function ResponseSchema(resp: Json, mediaType: Option<Json>): Option<Json>
  {
    var content := Get(resp, "content");
    if !TruthyOpt(content) || !TruthyOpt(mediaType) then None
    else
      var media := Get(content.value, PropKey(mediaType));
      if !TruthyOpt(media) then None
      else
        var schema := Get(media.value, "schema");
        if TruthyOpt(schema) then schema else None
  }

  /** `getHttpRespBody(schema, objectKey)`: the response properties and
      description. An array schema gives its items'; an object schema gives
      its own, or with an object key those of the named property (through
      `items.additionalProperties` for a `[*]` key); anything else gives
      none. */
  function RespBody(schema: Json, objectKey: Json): (r: Result<(Json, Json)>)
    ensures Get(schema, "type") != Some(Str("array")) && Get(schema, "type") != Some(Str("object"))
            ==> r == Ok((Obj([]), Str("")))
    ensures Get(schema, "type") == Some(Str("object")) && !Truthy(objectKey)
            ==> r == Ok((Or(Get(schema, "properties"), Obj([])), Or(Get(schema, "description"), Str(""))))
  {
    var t := Get(schema, "type");
    if t == Some(Str("array")) then
      var props :- Read(Get(schema, "items"), "properties");
      var items := Get(schema, "items").value;
      Ok((Or(props, Obj([])), Or(Get(items, "description"), Str(""))))
    else if t == Some(Str("object")) then
      if !Truthy(objectKey) then
        Ok((Or(Get(schema, "properties"), Obj([])), Or(Get(schema, "description"), Str(""))))
      else if !objectKey.Str? then Err(TypeError + ": objectKey.includes is not a function")
      else
        // `objectKey.includes('[*]')` holds exactly when splitting on it gives
        // more than one part.
        var parts := SplitOn(objectKey.s, "[*]");
        if |parts| > 1 then
          var key := ReplaceFirst(parts[1], ".", "");
          var base := ["properties", "items", "additionalProperties", "properties", key, "items"];
          Ok((Nullish(Chain(schema, base + ["properties"]), Obj([])),
              Nullish(Chain(schema, base + ["description"]),
                      Nullish(Chain(schema, ["properties", "items", "description"]), Str("")))))
        else
          var key := ReplaceFirst(objectKey.s, "$.", "");
          Ok((Nullish(Chain(schema, ["properties", key, "items", "properties"]),
                      Nullish(Chain(schema, ["properties", key, "properties"]), Obj([]))),
              Nullish(Chain(schema, ["properties", key, "items", "description"]),
                      Nullish(Chain(schema, ["description"]), Str("")))))
    else Ok((Obj([]), Str("")))
  }

  /** What `getHttpOperationInfo` returns. */
  datatype OpInfo = OpInfo(respProps: Json, respDescription: Json, opDescription: Json, requestBody: Json)

  /** `getHttpOperationInfo(api, path, httpVerb, mediaType, openAPIDocKey,
      objectKey)`. */
  function OperationInfo(api: Json, path: string, verb: string, mediaType: Option<Json>,
                         docKey: string, objectKey: Json): (r: Result<OpInfo>)
  {
    var op :- OperationOf(api, path, verb);
    var opDescription := Or(Get(op, "description"), Str(""));
    var requestBody :- RequestBodyOf(op);
    match ResponseObj(op, docKey)
    case None => Ok(OpInfo(Obj([]), Str(""), opDescription, requestBody))
    case Some(resp) =>
      match ResponseSchema(resp, mediaType)
      case None => Ok(OpInfo(Obj([]), Or(Get(resp, "description"), Str("")), opDescription, requestBody))
      case Some(schema) =>
        var body :- RespBody(schema, objectKey);
        var description := Get(resp, "description");
        Ok(OpInfo(body.0, if TruthyOpt(description) then description.value else body.1,
                  opDescription, requestBody))
  }

  /** The operation must exist: a missing path or verb throws. */
  lemma OperationInfoNeedsOp(api: Json, path: string, verb: string, mediaType: Option<Json>,
                             docKey: string, objectKey: Json)
    ensures OperationOf(api, path, verb).Err? ==>
              OperationInfo(api, path, verb, mediaType, docKey, objectKey) == Err(OperationOf(api, path, verb).error)
  {
  }

  /** The operation's description, or the empty string, is returned as is. */
  lemma OperationInfoDescription(api: Json, path: string, verb: string, mediaType: Option<Json>,
                                 docKey: string, objectKey: Json)
    ensures var r := OperationInfo(api, path, verb, mediaType, docKey, objectKey);
            r.Ok? ==> OperationOf(api, path, verb).Ok? &&
                      r.value.opDescription == Or(Get(OperationOf(api, path, verb).value, "description"), Str(""))
  {
  }

  /** Without the response, or without content for the media type, there
      are no response properties. */
  lemma OperationInfoNoResponse(api: Json, path: string, verb: string, mediaType: Option<Json>,
                                docKey: string, objectKey: Json)
    requires OperationOf(api, path, verb).Ok? && RequestBodyOf(OperationOf(api, path, verb).value).Ok?
    ensures var r := OperationInfo(api, path, verb, mediaType, docKey, objectKey);
            var op := OperationOf(api, path, verb).value;
            (ResponseObj(op, docKey).None? ==> r.Ok? && r.value.respProps == Obj([]) && r.value.respDescription == Str("")) &&
            (ResponseObj(op, docKey).Some? && ResponseSchema(ResponseObj(op, docKey).value, mediaType).None? ==>
               r.Ok? && r.value.respProps == Obj([]))
  {
  }

  /** `{ type, description }` as the helpers store it. */
  function Details(typ: string, description: string): Json
  {
    Obj([Entry("type", Str(typ)), Entry("description", Str(description))])
  }

  /** `x.type || ''` followed by ` (format)` when there is a format. */
  function TypeString(typ: Option<Json>, format: Option<Json>): (r: string)
    ensures !TruthyOpt(format) ==> r == JsString(Or(typ, Str("")))
    ensures TruthyOpt(format) ==> r == JsString(Or(typ, Str(""))) + " (" + JsString(format.value) + ")"
  {
    var t := JsString(Or(typ, Str("")));
    if TruthyOpt(format) then t + " (" + JsString(format.value) + ")" else t
  }

  /** `(x.description || '').replace(/\n/g, ' ')`: a description that is not
      a string throws. */
  function CleanDescription(d: Option<Json>): (r: Result<string>)
    ensures r.Ok? ==> '\n' !in r.value
    ensures r.Ok? <==> Or(d, Str("")).Str?
  {
    var t := Or(d, Str(""));
    if !t.Str? then Err(TypeError + ": description.replace is not a function")
    else
      assert forall i :: 0 <= i < |t.s| ==> MapChar(t.s, '\n', ' ')[i] != '\n';
      Ok(MapChar(t.s, '\n', ' '))
  }

  /** The `key: value` notes a server variable's other fields add to its
      description, in field order. */
  function VarNotes(es: seq<Entry>): (notes: seq<string>)
    ensures |notes| <= |es|
    decreases |es|
  {
    if es == [] then []
    else
      var rest := VarNotes(es[..|es| - 1]);
      var e := es[|es| - 1];
      if e.key == "description" || e.key == "format" then rest
      else rest + [e.key + ": " + FieldText(e.value)]
  }

  /** The loop over a server variable's fields. */
  method CollectVarNotes(es: seq<Entry>) returns (notes: seq<string>)
    ensures notes == VarNotes(es)
  {
    notes := [];
    var k := 0;
    while k < |es|
      invariant 0 <= k <= |es|
      invariant notes == VarNotes(es[..k])
    {
      assert es[..k + 1][..k] == es[..k];
      var e := es[k];
      if e.key != "description" && e.key != "format" {
        notes := notes + [e.key + ": " + FieldText(e.value)];
      }
      k := k + 1;
    }
    assert es[..k] == es;
  }

  /** The entry `getRequiredServerVars` makes of one server variable: type
      `string` with the format, the description with the other fields
      appended in parentheses. */
  function ServerVar(vd: Json): (r: Result<Json>)
    ensures r.Err? <==> vd.Null? || !Or(Get(vd, "description"), Str("")).Str?
  {
    if vd.Null? then Err(TypeError + ": cannot read properties of null (reading 'description')")
    else
      var description :- CleanDescription(Get(vd, "description"));
      var notes := VarNotes(Entries(vd));
      var text := if notes == [] then description
                  else (if description != "" then description + " " else description) + "(" + Join(notes, ", ") + ")";
      Ok(Details(TypeString(Some(Str("string")), Get(vd, "format")), text))
  }

  /** The body of the loop over server variables. */
  method ServerVarDetails(vd: Json) returns (r: Result<Json>)
    ensures r == ServerVar(vd)
  {
    if vd.Null? {
      return Err(TypeError + ": cannot read properties of null (reading 'description')");
    }
    var d := Or(Get(vd, "description"), Str(""));
    if !d.Str? {
      return Err(TypeError + ": description.replace is not a function");
    }
    var description := MapChar(d.s, '\n', ' ');
    var notes := CollectVarNotes(Entries(vd));
    if |notes| > 0 {
      if description != "" {
        description := description + " ";
      }
      description := description + "(" + Join(notes, ", ") + ")";
    }
    r := Ok(Details(TypeString(Some(Str("string")), Get(vd, "format")), description));
  }

  /** `dereferencedAPI.servers[0].variables`, when present. */
  function ServerVariables(api: Json): (r: Result<seq<Entry>>)
    ensures r.Err? <==> api.Null?
  {
    if api.Null? then Err(TypeError + ": cannot read properties of null (reading 'servers')")
    else
      var servers := Get(api, "servers");
      if !TruthyOpt(servers) then Ok([])
      else
        var first := if servers.value.Arr? then (if servers.value.items == [] then None else Some(servers.value.items[0]))
                     else Get(servers.value, "0");
        if !TruthyOpt(first) then Ok([])
        else
          var vars := Get(first.value, "variables");
          if !TruthyOpt(vars) then Ok([]) else Ok(Entries(vars.value))
  }

  /** `getRequiredServerVars(dereferencedAPI)`: `serverVars[varName] = {
      type, description }` for each variable of the first server. */
  function RequiredServerVars(api: Json): Result<seq<Entry>>
  {
    var vars :- ServerVariables(api);
    PutEach(ServerVar, vars, |vars|)
  }

  /** The server variables documented are exactly those of the first
      server: every variable gets an entry, under its own name, and nothing
      else does. */
  lemma RequiredServerVarsNamed(api: Json)
    requires ServerVariables(api).Ok?
    ensures RequiredServerVars(api).Ok? ==>
              NamedAfter(RequiredServerVars(api).value, ServerVariables(api).value)
  {
    var vars := ServerVariables(api).value;
    PutEachNamed(ServerVar, vars, |vars|);
    assert vars[..|vars|] == vars;
  }

  /** The loop of `getRequiredServerVars`. */
  method GetRequiredServerVars(api: Json) returns (r: Result<seq<Entry>>)
    ensures r == RequiredServerVars(api)
  {
    var vars := ServerVariables(api);
    if vars.Err? {
      return Err(vars.error);
    }
    var vs := vars.value;
    var serverVars: seq<Entry> := [];
    for k := 0 to |vs|
      invariant PutEach(ServerVar, vs, k) == Ok(serverVars)
    {
      PutEachStep(ServerVar, vs, k, serverVars);
      var details := ServerVarDetails(vs[k].value);
      if details.Err? {
        PutEachErrStays(ServerVar, vs, k + 1, |vs|);
        return Err(details.error);
      }
      serverVars := Put(serverVars, vs[k].key, details.value);
    }
    r := Ok(serverVars);
  }

  /** The `example: value` note a parameter's own `example` adds when its
      schema has none. */
  function ExampleNotes(es: seq<Entry>, schema: Json): (notes: seq<string>)
    ensures TruthyOpt(Get(schema, "example")) ==> notes == []
    decreases |es|
  {
    if es == [] then []
    else
      var rest := ExampleNotes(es[..|es| - 1], schema);
      var e := es[|es| - 1];
      if e.key == "example" && !TruthyOpt(Get(schema, "example")) then rest + ["example: " + FieldText(e.value)]
      else rest
  }

  /** The loop over a parameter's fields. */
  method CollectExampleNotes(es: seq<Entry>, schema: Json) returns (notes: seq<string>)
    ensures notes == ExampleNotes(es, schema)
  {
    notes := [];
    var k := 0;
    while k < |es|
      invariant 0 <= k <= |es|
      invariant notes == ExampleNotes(es[..k], schema)
    {
      assert es[..k + 1][..k] == es[..k];
      var e := es[k];
      if e.key == "example" && !TruthyOpt(Get(schema, "example")) {
        notes := notes + ["example: " + FieldText(e.value)];
      }
      k := k + 1;
    }
    assert es[..k] == es;
  }

  /** A parameter is documented when it has a name and a schema. */
  predicate Kept(param: Json)
  {
    TruthyOpt(Get(param, "name")) && TruthyOpt(Get(param, "schema"))
  }

  /** The name a kept parameter is documented under. */
  function ParamName(param: Json): string
    requires Kept(param)
  {
    JsString(Get(param, "name").value)
  }

  /** `param.required === true`. */
  predicate IsRequired(param: Json)
  {
    Get(param, "required") == Some(Bool(true))
  }

  /** The details of a kept parameter: type and format of its schema, its
      description with line breaks flattened and its example noted. */
  function ParamDetails(param: Json): (r: Result<Json>)
    requires Kept(param)
    ensures r.Err? <==> !Or(Get(param, "description"), Str("")).Str?
  {
    var schema := Get(param, "schema").value;
    var description :- CleanDescription(Get(param, "description"));
    var notes := ExampleNotes(Entries(param), schema);
    var text := if notes == [] then description else description + " (" + Join(notes, ", ") + ")";
    Ok(Details(TypeString(Get(schema, "type"), Get(schema, "format")), text))
  }

  /** The required and optional parameter maps after the first `n`
      parameters. */
  function ParamsUpTo(params: seq<Json>, n: nat): (r: Result<(seq<Entry>, seq<Entry>)>)
    requires n <= |params|
  {
    FoldEach(AddParam, ([], []), params, n)
  }

  /** One turn of the parameter loop. */
  function AddParam(acc: (seq<Entry>, seq<Entry>), param: Json): (r: Result<(seq<Entry>, seq<Entry>)>)
    ensures r.Ok? && Kept(param) ==> ParamDetails(param).Ok?
    ensures r.Ok? && Kept(param) && IsRequired(param) ==>
              r.value == (Put(acc.0, ParamName(param), ParamDetails(param).value), acc.1)
    ensures r.Ok? && Kept(param) && !IsRequired(param) ==>
              r.value == (acc.0, Put(acc.1, ParamName(param), ParamDetails(param).value))
    ensures r.Ok? && !Kept(param) ==> r.value == acc
  {
    if param.Null? then Err(TypeError + ": cannot read properties of null (reading 'name')")
    else if !Kept(param) then Ok(acc)
    else
      var details :- ParamDetails(param);
      if IsRequired(param) then Ok((Put(acc.0, ParamName(param), details), acc.1))
      else Ok((acc.0, Put(acc.1, ParamName(param), details)))
  }

  lemma ParamsErrStays(params: seq<Json>, n: nat, m: nat)
    requires n <= m <= |params|
    requires ParamsUpTo(params, n).Err?
    ensures ParamsUpTo(params, m) == ParamsUpTo(params, n)
  {
    FoldEachErrStays(AddParam, ([], []), params, n, m);
  }

  /** Some kept parameter among `ps` has name `k` and is (or is not)
      required. */
  ghost predicate DeclaresParam(ps: seq<Json>, k: string, required: bool)
  {
    exists i :: 0 <= i < |ps| && Kept(ps[i]) && ParamName(ps[i]) == k && IsRequired(ps[i]) == required
  }

  lemma DeclaresParamSnoc(params: seq<Json>, n: nat)
    requires 0 < n <= |params|
    ensures var p := params[n - 1];
            forall k, b :: DeclaresParam(params[..n], k, b) <==>
              DeclaresParam(params[..n - 1], k, b) || (Kept(p) && ParamName(p) == k && IsRequired(p) == b)
  {
    var p := params[n - 1];
    var ps := params[..n];
    forall k, b ensures DeclaresParam(ps, k, b) <==>
             DeclaresParam(params[..n - 1], k, b) || (Kept(p) && ParamName(p) == k && IsRequired(p) == b) {
      if DeclaresParam(ps, k, b) {
        var i :| 0 <= i < |ps| && Kept(ps[i]) && ParamName(ps[i]) == k && IsRequired(ps[i]) == b;
        if i < n - 1 {
          assert params[..n - 1][i] == ps[i];
        }
      }
      if DeclaresParam(params[..n - 1], k, b) {
        var i :| 0 <= i < n - 1 && Kept(params[..n - 1][i]) && ParamName(params[..n - 1][i]) == k
                 && IsRequired(params[..n - 1][i]) == b;
        assert ps[i] == params[..n - 1][i];
      }
      if Kept(p) && ParamName(p) == k && IsRequired(p) == b {
        assert ps[n - 1] == p;
      }
    }
  }

  /** The split the helper promises: a name is among the required
      parameters exactly when a kept parameter of that name has
      `required: true`, and among the optional ones exactly when a kept
      parameter of that name does not. Parameters without a name or a
      schema leave no trace. */
  lemma {:induction false} ParamsUpToSplit(params: seq<Json>, n: nat)
    requires n <= |params|
    ensures SplitAt(params, n)
    decreases n
  {
    if n == 0 {
      SplitBase(params);
    } else {
      ParamsUpToSplit(params, n - 1);
      SplitStep(params, n);
    }
  }

  lemma SplitBase(params: seq<Json>)
    ensures SplitAt(params, 0)
  {
  }

  /** After the first `n` parameters, the two maps hold exactly the names
      declared required and optional. */
  ghost predicate SplitAt(params: seq<Json>, n: nat)
    requires n <= |params|
  {
    ParamsUpTo(params, n).Ok? ==>
      var (req, opt) := ParamsUpTo(params, n).value;
      (forall k :: k in Keys(req) <==> DeclaresParam(params[..n], k, true)) &&
      (forall k :: k in Keys(opt) <==> DeclaresParam(params[..n], k, false))
  }

  lemma SplitStep(params: seq<Json>, n: nat)
    requires 0 < n <= |params| && SplitAt(params, n - 1)
    ensures SplitAt(params, n)
  {
    var r := ParamsUpTo(params, n);
    if r.Ok? {
      var (req0, opt0) := ParamsUpTo(params, n - 1).value;
      var p := params[n - 1];
      DeclaresParamSnoc(params, n);
      if Kept(p) {
        var d := ParamDetails(p).value;
        if IsRequired(p) {
          PutKeySet(req0, ParamName(p), d);
        } else {
          PutKeySet(opt0, ParamName(p), d);
        }
      }
    }
  }

  /** `Object.assign(target, source)`: every entry of `source` is written
      over `target` in order. */
  function Assign(target: seq<Entry>, source: seq<Entry>): (r: seq<Entry>)
    decreases |source|
  {
    if source == [] then target
    else Put(Assign(target, source[..|source| - 1]), source[|source| - 1].key, source[|source| - 1].value)
  }

  /** After `Object.assign`, the source's entries win and the target's other
      entries stay. */
  lemma {:induction false} AssignLookup(target: seq<Entry>, source: seq<Entry>, k: string)
    requires UniqueKeys(source)
    ensures k in Keys(source) ==> Lookup(Assign(target, source), k) == Lookup(source, k)
    ensures k !in Keys(source) ==> Lookup(Assign(target, source), k) == Lookup(target, k)
    decreases |source|
  {
    if source != [] {
      InitUnique(source);
      AssignLookup(target, source[..|source| - 1], k);
      AssignLookupStep(target, source, k);
    }
  }

  /** Dropping the last entry keeps the keys unique, and the dropped key is
      not among the rest. */
  lemma InitUnique(source: seq<Entry>)
    requires UniqueKeys(source) && source != []
    ensures var init := source[..|source| - 1];
            var last := source[|source| - 1];
            UniqueKeys(init) && Keys(source) == Keys(init) + [last.key]
            && last.key !in Keys(init) && source == init + [last]
  {
    var init := source[..|source| - 1];
    assert source[..|source|] == source;
    UniquePrefix(source, |source|);
    LastKeyFresh(source);
  }

  /** The keys of a non-empty entry list are those before its last entry,
      then the last entry's, which is new when the keys are unique. */
  lemma LastKeyFresh(source: seq<Entry>)
    requires UniqueKeys(source) && source != []
    ensures var init := source[..|source| - 1];
            var last := source[|source| - 1];
            Keys(source) == Keys(init) + [last.key] && last.key !in Keys(init)
  {
    var init := source[..|source| - 1];
    var last := source[|source| - 1];
    assert Keys(source) == Keys(init) + [last.key];
    forall i | 0 <= i < |Keys(init)| ensures Keys(init)[i] != last.key {
      assert Keys(source)[i] == Keys(init)[i];
    }
  }

  lemma AssignLookupStep(target: seq<Entry>, source: seq<Entry>, k: string)
    requires UniqueKeys(source) && source != []
    requires var init := source[..|source| - 1];
             (k in Keys(init) ==> Lookup(Assign(target, init), k) == Lookup(init, k)) &&
             (k !in Keys(init) ==> Lookup(Assign(target, init), k) == Lookup(target, k))
    ensures k in Keys(source) ==> Lookup(Assign(target, source), k) == Lookup(source, k)
    ensures k !in Keys(source) ==> Lookup(Assign(target, source), k) == Lookup(target, k)
  {
    var init := source[..|source| - 1];
    var last := source[|source| - 1];
    InitUnique(source);
    if k == last.key {
      LookupAppendLast(init, last);
    } else {
      LookupAppendOther(init, last, k);
    }
  }

  lemma {:induction false} LookupAppendLast(es: seq<Entry>, e: Entry)
    requires e.key !in Keys(es)
    ensures Lookup(es + [e], e.key) == Some(e.value)
    decreases |es|
  {
    if es != [] {
      assert (es + [e])[1..] == es[1..] + [e];
      assert Keys(es) == [es[0].key] + Keys(es[1..]);
      LookupAppendLast(es[1..], e);
    } else {
      assert es + [e] == [e];
    }
  }

  lemma {:induction false} LookupAppendOther(es: seq<Entry>, e: Entry, k: string)
    requires k != e.key
    ensures Lookup(es + [e], k) == Lookup(es, k)
    decreases |es|
  {
    if es != [] {
      assert (es + [e])[1..] == es[1..] + [e];
      LookupAppendOther(es[1..], e, k);
    } else {
      assert es + [e] == [e];
    }
  }

  /** `dereferencedAPI.paths[path][httpVerb].parameters || []` as the list
      the loop runs over: a string runs over characters, which have no
      name; anything else that is not an array is not iterable. */
  function ParamList(api: Json, path: string, verb: string): (r: Result<seq<Json>>)
  {
    var paths :- Member(api, "paths");
    var item :- Read(paths, path);
    var op :- Read(item, verb);
    var ps :- Read(op, "parameters");
    var list := Or(ps, Arr([]));
    if list.Arr? then Ok(list.items)
    else if list.Str? then Ok([])
    else Err(TypeError + ": parameters is not iterable")
  }

  /** `getHttpOperationParams(dereferencedAPI, path, httpVerb)`. */
  function OperationParams(api: Json, path: string, verb: string): (r: Result<(seq<Entry>, seq<Entry>)>)
  {
    var params :- ParamList(api, path, verb);
    var split :- ParamsUpTo(params, |params|);
    var serverVars :- RequiredServerVars(api);
    Ok((Assign(split.0, serverVars), split.1))
  }

  /** The merge the helper promises: a server variable is always a required
      parameter and its entry overrides a same-named parameter; every other
      name keeps the split of the parameter list. */
  lemma OperationParamsMerge(api: Json, path: string, verb: string, k: string)
    requires OperationParams(api, path, verb).Ok?
    ensures var params := ParamList(api, path, verb).value;
            var serverVars := RequiredServerVars(api).value;
            var (req, opt) := OperationParams(api, path, verb).value;
            (k in Keys(serverVars) ==> Lookup(req, k) == Lookup(serverVars, k)) &&
            (k !in Keys(serverVars) ==> (Lookup(req, k).Some? <==> DeclaresParam(params, k, true))) &&
            (k in Keys(opt) <==> DeclaresParam(params, k, false))
  {
    var params := ParamList(api, path, verb).value;
    var split := ParamsUpTo(params, |params|).value;
    RequiredServerVarsNamed(api);
    ParamsUpToSplit(params, |params|);
    assert params[..|params|] == params;
    AssignLookup(split.0, RequiredServerVars(api).value, k);
    LookupFound(split.0, k);
  }

  /** The body of the parameter loop of `getHttpOperationParams`, on the
      two maps so far. */
  method ParamTurn(requiredParams: seq<Entry>, optionalParams: seq<Entry>, param: Json)
    returns (r: Result<(seq<Entry>, seq<Entry>)>)
    ensures r == AddParam((requiredParams, optionalParams), param)
  {
    if param.Null? {
      return Err(TypeError + ": cannot read properties of null (reading 'name')");
    }
    if !Kept(param) {
      return Ok((requiredParams, optionalParams));
    }
    var schema := Get(param, "schema").value;
    var d := Or(Get(param, "description"), Str(""));
    if !d.Str? {
      return Err(TypeError + ": description.replace is not a function");
    }
    var description := MapChar(d.s, '\n', ' ');
    var notes := CollectExampleNotes(Entries(param), schema);
    if |notes| > 0 {
      description := description + " (" + Join(notes, ", ") + ")";
    }
    var details := Details(TypeString(Get(schema, "type"), Get(schema, "format")), description);
    if IsRequired(param) {
      r := Ok((Put(requiredParams, ParamName(param), details), optionalParams));
    } else {
      r := Ok((requiredParams, Put(optionalParams, ParamName(param), details)));
    }
  }

  /** A turn of the parameter loop after `n` parameters without failure. */
  lemma ParamsStep(params: seq<Json>, n: nat, acc: (seq<Entry>, seq<Entry>))
    requires n < |params| && ParamsUpTo(params, n) == Ok(acc)
    ensures ParamsUpTo(params, n + 1) == AddParam(acc, params[n])
  {
  }

  /** The loop of `Object.assign(target, source)`. */
  method AssignLoop(target: seq<Entry>, source: seq<Entry>) returns (r: seq<Entry>)
    ensures r == Assign(target, source)
  {
    r := target;
    var j := 0;
    while j < |source|
      invariant 0 <= j <= |source|
      invariant r == Assign(target, source[..j])
    {
      assert source[..j + 1][..j] == source[..j];
      r := Put(r, source[j].key, source[j].value);
      j := j + 1;
    }
    assert source[..j] == source;
  }

  /** The loop of `getHttpOperationParams`. */
  method GetHttpOperationParams(api: Json, path: string, verb: string) returns (r: Result<(seq<Entry>, seq<Entry>)>)
    ensures r == OperationParams(api, path, verb)
  {
    var list := ParamList(api, path, verb);
    if list.Err? {
      return Err(list.error);
    }
    var params := list.value;
    var requiredParams: seq<Entry> := [];
    var optionalParams: seq<Entry> := [];
    var k := 0;
    while k < |params|
      invariant 0 <= k <= |params|
      invariant ParamsUpTo(params, k) == Ok((requiredParams, optionalParams))
    {
      ParamsStep(params, k, (requiredParams, optionalParams));
      var next := ParamTurn(requiredParams, optionalParams, params[k]);
      if next.Err? {
        ParamsErrStays(params, k + 1, |params|);
        return Err(next.error);
      }
      requiredParams, optionalParams := next.value.0, next.value.1;
      k := k + 1;
    }
    var serverVars := GetRequiredServerVars(api);
    if serverVars.Err? {
      return Err(serverVars.error);
    }
    requiredParams := AssignLoop(requiredParams, serverVars.value);
    r := Ok((requiredParams, optionalParams));
  }
}
