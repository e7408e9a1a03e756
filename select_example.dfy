/** The `SELECT` examples of a resource page
    (src/docgen/resource/examples/select-example.js): one tab per select
    method, each with the fields of the resource's first JSON response
    schema and a `WHERE` clause over the method's required parameters. */
module SelectExample {
  import opened Base
  import opened Text
  import opened JsonModel
  import opened JsonText
  import opened ExampleParts

  // ---------------------------------------------------------------------
  // getResourceFields

  /** `Object.values(j)`: the values of an object, the items of an array,
      the characters of a string, and nothing for other values. */
  function Values(j: Json): (vs: seq<Json>)
    ensures j.Obj? ==> |vs| == |j.entries| && forall i :: 0 <= i < |vs| ==> vs[i] == j.entries[i].value
    ensures j.Arr? ==> vs == j.items
  {
    match j
    case Obj(es) => seq(|es|, i requires 0 <= i < |es| => es[i].value)
    case Arr(items) => items
    case Str(s) => seq(|s|, i requires 0 <= i < |s| => Str([s[i]]))
    case _ => []
  }

  /** `extractFieldsFromSchema`: the property names of the items of an
      array schema, otherwise those of the schema itself. */
  function FieldsOf(schema: Json): seq<string>
  {
    var items := Get(schema, "items");
    if Get(schema, "type") == Some(Str("array")) && TruthyOpt(items) && TruthyOpt(Get(items.value, "properties")) then
      Keys(Entries(Get(items.value, "properties").value))
    else if TruthyOpt(Get(schema, "properties")) then Keys(Entries(Get(schema, "properties").value))
    else []
  }

  /** The response schema of a method whose response is JSON, when every
      step of the lookup is truthy. */
  function ResponseSchema(m: Json): Option<Json>
    requires !m.Null?
  {
    var response := Get(m, "response");
    var operation := Get(m, "operation");
    if TruthyOpt(response) && Get(response.value, "mediaType") == Some(Str("application/json")) && TruthyOpt(operation) then
      var responses := Get(operation.value, "responses");
      var doc := if TruthyOpt(responses) then Get(responses.value, PropKey(Get(response.value, "openAPIDocKey"))) else None;
      if TruthyOpt(doc) then
        var content := Get(doc.value, "content");
        if TruthyOpt(content) then
          var json := Get(content.value, "application/json");
          if TruthyOpt(json) && TruthyOpt(Get(json.value, "schema")) then Get(json.value, "schema") else None
        else None
      else None
    else None
  }

  /** One turn of the loop over the methods: the fields when the method has
      a response schema; reading `response` of `null` throws. */
  function FieldsTurn(m: Json): (r: Result<Option<seq<string>>>)
    ensures r.Err? <==> m.Null?
  {
    if m.Null? then Err(TypeError + ": cannot read properties of null (reading 'response')")
    else
      var schema := ResponseSchema(m);
      if schema.Some? then Ok(Some(FieldsOf(schema.value))) else Ok(None)
  }

  /** The loop from the `i`-th method on: it returns at the first method
      with a response schema. */
  function FieldsFrom(methods: seq<Json>, i: nat): Result<seq<string>>
    requires i <= |methods|
    decreases |methods| - i
  {
    if i == |methods| then Ok([])
    else
      var turn :- FieldsTurn(methods[i]);
      if turn.Some? then Ok(turn.value) else FieldsFrom(methods, i + 1)
  }

  /** `getResourceFields(resourceData)`: the fields of the first method, in
      the order of `resourceData.methods`, that has a JSON response schema.
      It does not depend on the method a tab is for. */
  function ResourceFields(resourceData: Json): Result<seq<string>>
  {
    var methods := Get(resourceData, "methods");
    FieldsFrom(if methods.Some? then Values(methods.value) else [], 0)
  }

  /** With no method from `i` on having a schema, there are no fields. */
  lemma {:induction false} FieldsFromNone(methods: seq<Json>, i: nat)
    requires i <= |methods|
    requires forall k :: i <= k < |methods| ==> FieldsTurn(methods[k]) == Ok(None)
    ensures FieldsFrom(methods, i) == Ok([])
    decreases |methods| - i
  {
    if i < |methods| {
      FieldsFromNone(methods, i + 1);
    }
  }

  /** The fields come from the first method with a schema, all methods
      before it having none. */
  lemma {:induction false} FieldsFromFound(methods: seq<Json>, i: nat, k: nat)
    requires i <= k < |methods|
    requires FieldsTurn(methods[k]).Ok? && FieldsTurn(methods[k]).value.Some?
    requires forall m :: i <= m < k ==> FieldsTurn(methods[m]) == Ok(None)
    ensures FieldsFrom(methods, i) == Ok(FieldsTurn(methods[k]).value.value)
    decreases k - i
  {
    if i < k {
      FieldsFromFound(methods, i + 1, k);
    }
  }

  /** The loop as written, with its early return. */
  method GetResourceFields(resourceData: Json) returns (r: Result<seq<string>>)
    ensures r == ResourceFields(resourceData)
  {
    var methods := Get(resourceData, "methods");
    var values := if methods.Some? then Values(methods.value) else [];
    var i := 0;
    while i < |values|
      invariant 0 <= i <= |values|
      invariant FieldsFrom(values, 0) == FieldsFrom(values, i)
    {
      var turn := FieldsTurn(values[i]);
      if turn.Err? {
        return Err(turn.error);
      }
      if turn.value.Some? {
        return Ok(turn.value.value);
      }
      i := i + 1;
    }
    return Ok([]);
  }

  // ---------------------------------------------------------------------
  // getRequiredParams

  /** One turn of the loop over the parameters: the name of a required
      parameter (`undefined` when it has none). */
  function RequiredTurn(param: Json): (r: Result<Option<Option<Json>>>)
    ensures r.Err? <==> param.Null?
  {
    if param.Null? then Err(TypeError + ": cannot read properties of null (reading 'required')")
    else if TruthyOpt(Get(param, "required")) then Ok(Some(Get(param, "name")))
    else Ok(None)
  }

  function RequiredTurns(params: seq<Json>): (ts: seq<Result<Option<Option<Json>>>>)
    ensures |ts| == |params|
  {
    seq(|params|, i requires 0 <= i < |params| => RequiredTurn(params[i]))
  }

  /** `getRequiredParams(operation)`: the names of the required parameters,
      in order. */
  function RequiredParams(operation: Json): Result<seq<Option<Json>>>
  {
    var params :- ParamsOf(operation);
    Gather(RequiredTurns(params), |params|)
  }

  /** Every required name is the name of a parameter that is an object
      with a truthy `required`, and no parameter is `null`. */
  lemma RequiredParamsFrom(operation: Json)
    requires RequiredParams(operation).Ok?
    ensures var params := ParamsOf(operation).value;
            (forall i :: 0 <= i < |params| ==> !params[i].Null?) &&
            forall n :: n in RequiredParams(operation).value <==>
              exists i :: 0 <= i < |params| && TruthyOpt(Get(params[i], "required")) && Get(params[i], "name") == n
  {
    var params := ParamsOf(operation).value;
    var ts := RequiredTurns(params);
    assert RequiredParams(operation) == Gather(ts, |ts|);
    GatherExact(ts, |ts|);
    forall n ensures n in RequiredParams(operation).value <==>
                     exists i :: 0 <= i < |params| && TruthyOpt(Get(params[i], "required")) && Get(params[i], "name") == n {
      if n in RequiredParams(operation).value {
        var i := GatherWitness(ts, n);
        assert ts[i] == RequiredTurn(params[i]);
      }
      if exists i :: 0 <= i < |params| && TruthyOpt(Get(params[i], "required")) && Get(params[i], "name") == n {
        var i :| 0 <= i < |params| && TruthyOpt(Get(params[i], "required")) && Get(params[i], "name") == n;
        assert ts[i] == RequiredTurn(params[i]);
      }
    }
    forall i | 0 <= i < |params| ensures !params[i].Null? {
      assert ts[i] == RequiredTurn(params[i]);
    }
  }

  /** The required names come in parameter order. */
  lemma RequiredParamsOrder(operation: Json)
    requires RequiredParams(operation).Ok?
    ensures var params := ParamsOf(operation).value;
            RequiredParams(operation).value == Given(RequiredTurns(params), |params|)
  {
    var params := ParamsOf(operation).value;
    GatherOrder(RequiredTurns(params), |params|);
  }

  // ---------------------------------------------------------------------
  // generateSelectSql

  /** `parameters.some(p => p.name === param)` from the `i`-th item on;
      reading `name` of `null` throws. */
  function SomeNamed(items: seq<Json>, param: Option<Json>, i: nat): Result<bool>
    requires i <= |items|
    decreases |items| - i
  {
    if i == |items| then Ok(false)
    else if items[i].Null? then Err(TypeError + ": cannot read properties of null (reading 'name')")
    else if Get(items[i], "name") == param then Ok(true)
    else SomeNamed(items, param, i + 1)
  }

  /** A parameter that is not `null`, among others that are not either, is
      found. */
  lemma {:induction false} SomeNamedFinds(items: seq<Json>, param: Option<Json>, i: nat, k: nat)
    requires i <= k < |items| && Get(items[k], "name") == param
    requires forall m :: 0 <= m < |items| ==> !items[m].Null?
    ensures SomeNamed(items, param, i) == Ok(true)
    decreases k - i
  {
    if Get(items[i], "name") != param {
      SomeNamedFinds(items, param, i + 1, k);
    }
  }

  /** `${param} = '{{ ${param} }}'`. */
  function Plain(p: string): string
  {
    p + " = '{{ " + p + " }}'"
  }

  /** The condition for one required parameter, with its four branches. */
  function Condition(param: Option<Json>, parameters: Option<Json>): Result<string>
  {
    if param == Some(Str("endpoint")) then Ok(Plain("endpoint"))
    else
      var found :- if !TruthyOpt(parameters) then Ok(false)
                   else if parameters.value.Arr? then SomeNamed(parameters.value.items, param, 0)
                   else Err(TypeError + ": parameters.some is not a function");
      if found then Ok(Plain(PropKey(param)))
      else if param.Some? && param.value.Str? && StartsWith(param.value.s, "data__") then Ok(Plain(param.value.s[6..]))
      else Ok(Plain(PropKey(param)))
  }

  /** The conditions as they come out: each parameter named as it is. */
  function PlainConditions(required: seq<Option<Json>>): (cs: seq<string>)
    ensures |cs| == |required|
  {
    seq(|required|, i requires 0 <= i < |required| => Plain(PropKey(required[i])))
  }

  function ConditionTurns(required: seq<Option<Json>>, parameters: Option<Json>): (ts: seq<Result<Option<string>>>)
    ensures |ts| == |required|
  {
    seq(|required|, i requires 0 <= i < |required| =>
      var c := Condition(required[i], parameters); if c.Err? then Err(c.error) else Ok(Some(c.value)))
  }

  /** The `SELECT` list: the field names, or `*` when there are none. */
  function FieldList(fields: seq<string>): string
  {
    if fields != [] then Join(fields, ",\n") + "\n" else "*\n"
  }

  /** The `WHERE` clause, present only with required parameters. */
  function WhereClause(conditions: seq<string>): string
  {
    if conditions != [] then "WHERE " + Join(conditions, "\nAND ") + ";" else ""
  }

  const NotFound := "-- Method operation not found"

  /** `generateSelectSql(methodName, ...)`. */
  function SelectSql(methodName: Option<Json>, provider: string, service: string, resource: string, resourceData: Json): Result<string>
    requires TruthyOpt(Get(resourceData, "methods"))
  {
    var m := Get(Get(resourceData, "methods").value, PropKey(methodName));
    if !TruthyOpt(m) || !TruthyOpt(Get(m.value, "operation")) then Ok(NotFound)
    else
      var operation := Get(m.value, "operation").value;
      var fields :- ResourceFields(resourceData);
      var required :- RequiredParams(operation);
      var conditions :- Gather(ConditionTurns(required, Get(operation, "parameters")), |required|);
      Ok("SELECT\n" + FieldList(fields) + "FROM " + provider + "." + service + "." + resource + "\n" + WhereClause(conditions))
  }

  /** Every required parameter was found among the parameters, so the
      branch that strips `data__` is never taken: each condition names the
      parameter as it is. */
  lemma ConditionsPlain(operation: Json)
    requires RequiredParams(operation).Ok?
    ensures var required := RequiredParams(operation).value;
            var ts := ConditionTurns(required, Get(operation, "parameters"));
            Gather(ts, |required|) == Ok(PlainConditions(required))
  {
    var required := RequiredParams(operation).value;
    var parameters := Get(operation, "parameters");
    var params := ParamsOf(operation).value;
    RequiredParamsFrom(operation);
    forall j | 0 <= j < |required| ensures Condition(required[j], parameters) == Ok(Plain(PropKey(required[j]))) {
      ConditionPlain(operation, required[j]);
    }
    var ts := ConditionTurns(required, parameters);
    var cs := PlainConditions(required);
    assert forall j :: 0 <= j < |required| ==> ts[j] == Ok(Some(cs[j]));
    GatherAllSome(ts, cs, |required|);
    assert cs[..|required|] == cs;
  }

  lemma ConditionPlain(operation: Json, param: Option<Json>)
    requires RequiredParams(operation).Ok? && param in RequiredParams(operation).value
    ensures Condition(param, Get(operation, "parameters")) == Ok(Plain(PropKey(param)))
  {
    RequiredParamsFrom(operation);
    var params := ParamsOf(operation).value;
    var parameters := Get(operation, "parameters");
    var k :| 0 <= k < |params| && TruthyOpt(Get(params[k], "required")) && Get(params[k], "name") == param;
    assert TruthyOpt(parameters);
    if parameters.value.Str? {
      assert false;
    }
    if param != Some(Str("endpoint")) {
      assert parameters.value.Arr?;
      SomeNamedFinds(params, param, 0, k);
    }
  }

  /** Turns that all give something give all of it, in order. */
  lemma {:induction false} GatherAllSome<T>(ts: seq<Result<Option<T>>>, xs: seq<T>, n: nat)
    requires n <= |ts| == |xs|
    requires forall j :: 0 <= j < |ts| ==> ts[j] == Ok(Some(xs[j]))
    ensures Gather(ts, n) == Ok(xs[..n])
  {
    if n > 0 {
      GatherAllSome(ts, xs, n - 1);
      assert xs[..n] == xs[..n - 1] + [xs[n - 1]];
    }
  }

  /** The statement lists the fields (or `*`) and ends with a `WHERE`
      clause, and so with `;`, exactly when the method has required
      parameters; each condition is `name = '{{ name }}'`. */
  lemma SelectSqlShape(methodName: Option<Json>, provider: string, service: string, resource: string, resourceData: Json)
    requires TruthyOpt(Get(resourceData, "methods"))
    requires SelectSql(methodName, provider, service, resource, resourceData).Ok?
    requires SelectSql(methodName, provider, service, resource, resourceData).value != NotFound
    ensures var m := Get(Get(resourceData, "methods").value, PropKey(methodName));
            var operation := Get(m.value, "operation").value;
            var required := RequiredParams(operation).value;
            var sql := SelectSql(methodName, provider, service, resource, resourceData).value;
            sql == "SELECT\n" + FieldList(ResourceFields(resourceData).value) +
                   "FROM " + provider + "." + service + "." + resource + "\n" + WhereClause(PlainConditions(required)) &&
            (EndsWith(sql, ";") <==> required != [])
  {
    var m := Get(Get(resourceData, "methods").value, PropKey(methodName));
    var operation := Get(m.value, "operation").value;
    ConditionsPlain(operation);
    var required := RequiredParams(operation).value;
    var sql := SelectSql(methodName, provider, service, resource, resourceData).value;
    var w := WhereClause(PlainConditions(required));
    if required != [] {
      assert sql[|sql| - 1] == w[|w| - 1] == ';';
    } else {
      assert sql[|sql| - 1] == '\n';
    }
  }

  // ---------------------------------------------------------------------
  // createSelectExamples

  /** `createSelectMethodTab(method, ...)`: the description of the spread
      method's operation, then its SQL; reading `description` of a missing
      operation throws. */
  function MethodTab(m: Json, provider: string, service: string, resource: string, resourceData: Json): Result<string>
    requires TruthyOpt(Get(resourceData, "methods"))
  {
    var name := Get(m, "name");
    var description :- Read(Get(m, "operation"), "description");
    var sql :- SelectSql(name, provider, service, resource, resourceData);
    Ok("<TabItem value=\"" + PropKey(name) + "\">\n\n" + JsString(Or(description, Str(""))) + "\n\n" +
       "```sql\n" + sql + "```\n</TabItem>\n")
  }

  function TabTurns(ms: seq<Json>, provider: string, service: string, resource: string, resourceData: Json): (ts: seq<Result<string>>)
    requires TruthyOpt(Get(resourceData, "methods"))
    ensures |ts| == |ms|
  {
    seq(|ms|, i requires 0 <= i < |ms| => MethodTab(ms[i], provider, service, resource, resourceData))
  }

  /** The tab label of one method. */
  function Label(m: Json): string
  {
    "        { label: '" + PropKey(Get(m, "name")) + "', value: '" + PropKey(Get(m, "name")) + "' }"
  }

  function Labels(ms: seq<Json>): (ls: seq<string>)
    ensures |ls| == |ms|
  {
    seq(|ms|, i requires 0 <= i < |ms| => Label(ms[i]))
  }

  function ExamplesText(ms: seq<Json>, labels: string, tabs: string): string
    requires ms != []
  {
    "\n## `SELECT` examples\n\n<Tabs\n    defaultValue=\"" + PropKey(Get(ms[0], "name")) + "\"\n    values={[\n" +
    labels + "    ]}\n>\n" + tabs + "</Tabs>\n"
  }

  /** `createSelectExamples`: nothing without methods or select methods,
      otherwise a tab per select method, the first one shown by default. */
  function CreateSelectExamples(provider: string, service: string, resource: string, resourceData: Json): Result<string>
  {
    if !Truthy(resourceData) || !TruthyOpt(Get(resourceData, "methods")) then Ok("")
    else
      var ms :- VerbMethods(resourceData, "select");
      if ms == [] then Ok("")
      else
        var tabs :- Concat(TabTurns(ms, provider, service, resource, resourceData), |ms|);
        Ok(ExamplesText(ms, Listed(Labels(ms), ",\n", "\n", |ms|), tabs))
  }

  /** The labels are separated by commas, with none after the last one. */
  lemma LabelsJoined(ms: seq<Json>)
    requires ms != []
    ensures Listed(Labels(ms), ",\n", "\n", |ms|) == Join(Labels(ms), ",\n") + "\n"
  {
    ListedJoin(Labels(ms), ",\n", "\n");
  }

  lemma ExamplesTextNonEmpty(ms: seq<Json>, labels: string, tabs: string)
    requires ms != []
    ensures ExamplesText(ms, labels, tabs) != ""
  {
    var t := ExamplesText(ms, labels, tabs);
    assert |t| >= |"\n## `SELECT` examples\n\n"|;
  }

  /** The examples are empty exactly when the resource has no methods or no
      select method. */
  lemma CreateSelectExamplesEmpty(provider: string, service: string, resource: string, resourceData: Json)
    requires CreateSelectExamples(provider, service, resource, resourceData).Ok?
    ensures CreateSelectExamples(provider, service, resource, resourceData).value == "" <==>
              !Truthy(resourceData) || !TruthyOpt(Get(resourceData, "methods")) ||
              VerbMethods(resourceData, "select") == Ok([])
  {
    if Truthy(resourceData) && TruthyOpt(Get(resourceData, "methods")) && VerbMethods(resourceData, "select") != Ok([]) {
      var ms := VerbMethods(resourceData, "select").value;
      ExamplesTextNonEmpty(ms, Listed(Labels(ms), ",\n", "\n", |ms|), Concat(TabTurns(ms, provider, service, resource, resourceData), |ms|).value);
    }
  }

  /** The label loop as written: a comma after every label but the last. */
  method LabelLines(ms: seq<Json>) returns (text: string)
    ensures text == Listed(Labels(ms), ",\n", "\n", |ms|)
  {
    text := "";
    ghost var ls := Labels(ms);
    for i := 0 to |ms|
      invariant text == Listed(ls, ",\n", "\n", i)
    {
      ListedStep(ls, ",\n", "\n", i);
      assert ls[i] == Label(ms[i]);
      text := text + Label(ms[i]) + (if i + 1 < |ms| then ",\n" else "\n");
    }
  }

  /** `createSelectExamples` as written. */
  method CreateSelectExamplesText(provider: string, service: string, resource: string, resourceData: Json) returns (r: Result<string>)
    ensures r == CreateSelectExamples(provider, service, resource, resourceData)
  {
    if !Truthy(resourceData) || !TruthyOpt(Get(resourceData, "methods")) {
      return Ok("");
    }
    var ms := GetVerbMethods(resourceData, "select");
    if ms.Err? {
      return Err(ms.error);
    }
    if ms.value == [] {
      return Ok("");
    }
    var labels := LabelLines(ms.value);
    var tabs := AppendTurns(TabTurns(ms.value, provider, service, resource, resourceData));
    if tabs.Err? {
      return Err(tabs.error);
    }
    return Ok(ExamplesText(ms.value, labels, tabs.value));
  }
}
