/** The `DELETE` example of a resource page
    (src/docgen/resource/examples/delete-example.js): a `WHERE` over the
    required parameters of the first delete method, with `endpoint` last. */
module DeleteExample {
  import opened Base
  import opened Text
  import opened JsonModel
  import opened JsonText
  import opened ExampleParts

  // ---------------------------------------------------------------------
  // getWhereConditions

  const Endpoint: Option<Json> := Some(Str("endpoint"))

  /** One turn of the loop over the parameters: the name of a required
      parameter that is not `endpoint`. */
  function WhereTurn(param: Json): (r: Result<Option<Option<Json>>>)
    ensures r.Err? <==> param.Null?
    ensures r.Ok? && r.value.Some? <==>
              !param.Null? && TruthyOpt(Get(param, "required")) && Get(param, "name") != Endpoint
    ensures r.Ok? && r.value.Some? ==> r.value.value == Get(param, "name")
  {
    if param.Null? then Err(TypeError + ": cannot read properties of null (reading 'required')")
    else if TruthyOpt(Get(param, "required")) && Get(param, "name") != Endpoint then Ok(Some(Get(param, "name")))
    else Ok(None)
  }

  function WhereTurns(params: seq<Json>): (ts: seq<Result<Option<Option<Json>>>>)
    ensures |ts| == |params|
  {
    seq(|params|, i requires 0 <= i < |params| => WhereTurn(params[i]))
  }

  /** `getWhereConditions(operation)`: the required parameters, then
      `endpoint`. */
  function WhereConditions(operation: Json): Result<seq<Option<Json>>>
  {
    var params :- ParamsOf(operation);
    var names :- Gather(WhereTurns(params), |params|);
    Ok(names + [Endpoint])
  }

  /** The loop of `getWhereConditions`. */
  method GetWhereConditions(operation: Json) returns (r: Result<seq<Option<Json>>>)
    ensures r == WhereConditions(operation)
  {
    var params :- ParamsOf(operation);
    var turns := WhereTurns(params);
    var conditions := [];
    var i := 0;
    while i < |params|
      invariant 0 <= i <= |params|
      invariant Gather(turns, i) == Ok(conditions)
    {
      GatherStep(turns, i, conditions);
      var param := params[i];
      if param.Null? {
        GatherErrStays(turns, i + 1, |turns|);
        return Err(TypeError + ": cannot read properties of null (reading 'required')");
      }
      if TruthyOpt(Get(param, "required")) && Get(param, "name") != Endpoint {
        conditions := conditions + [Get(param, "name")];
      }
      i := i + 1;
    }
    conditions := conditions + [Endpoint];
    return Ok(conditions);
  }

  /** Parameter `i` is required and named `x`. */
  ghost predicate RequiredNamed(params: seq<Json>, i: int, x: Option<Json>)
  {
    0 <= i < |params| && !params[i].Null? && TruthyOpt(Get(params[i], "required")) && Get(params[i], "name") == x
  }

  /** Some required parameter is named `x`. */
  ghost predicate FromRequired(params: seq<Json>, x: Option<Json>)
  {
    exists i :: RequiredNamed(params, i, x)
  }

  /** The conditions are the required parameter names in parameter order,
      then `endpoint`. */
  lemma WhereConditionsOrder(operation: Json)
    requires WhereConditions(operation).Ok?
    ensures var params := ParamsOf(operation).value;
            WhereConditions(operation).value == Given(WhereTurns(params), |params|) + [Endpoint]
  {
    var params := ParamsOf(operation).value;
    GatherOrder(WhereTurns(params), |params|);
  }

  /** `endpoint` comes last and only there; before it come exactly the
      names of the required parameters that are not `endpoint`. */
  lemma WhereConditionsShape(operation: Json)
    requires WhereConditions(operation).Ok?
    ensures var cs := WhereConditions(operation).value;
            |cs| > 0 && cs[|cs| - 1] == Endpoint &&
            forall i :: 0 <= i < |cs| - 1 ==> cs[i] != Endpoint
    ensures var cs := WhereConditions(operation).value;
            var params := ParamsOf(operation).value;
            forall k :: 0 <= k < |cs| - 1 ==> FromRequired(params, cs[k])
    ensures var cs := WhereConditions(operation).value;
            var params := ParamsOf(operation).value;
            forall i :: 0 <= i < |params| && RequiredNamed(params, i, Get(params[i], "name")) &&
                        Get(params[i], "name") != Endpoint ==>
              Get(params[i], "name") in cs
  {
    var params := ParamsOf(operation).value;
    var ts := WhereTurns(params);
    var names := Gather(ts, |ts|).value;
    var cs := names + [Endpoint];
    assert WhereConditions(operation).value == cs;
    forall k | 0 <= k < |cs| - 1
      ensures cs[k] != Endpoint && FromRequired(params, cs[k])
    {
      assert cs[k] == names[k];
      var j := GatherWitness(ts, names[k]);
      TurnRequired(params, j, names[k]);
    }
    forall i | 0 <= i < |params| && RequiredNamed(params, i, Get(params[i], "name")) &&
               Get(params[i], "name") != Endpoint
      ensures Get(params[i], "name") in cs
    {
      RequiredTurn(params, i);
      GatherHas(ts, i);
    }
  }

  /** A turn that gives a name comes from a required parameter of that
      name. */
  lemma TurnRequired(params: seq<Json>, j: nat, x: Option<Json>)
    requires j < |params| && WhereTurns(params)[j] == Ok(Some(x))
    ensures x != Endpoint && RequiredNamed(params, j, x) && FromRequired(params, x)
  {
    assert WhereTurn(params[j]) == Ok(Some(x));
    var i: int := j;
    assert RequiredNamed(params, i, x);
  }

  /** A required parameter other than `endpoint` gives its name. */
  lemma RequiredTurn(params: seq<Json>, i: nat)
    requires i < |params| && RequiredNamed(params, i, Get(params[i], "name")) && Get(params[i], "name") != Endpoint
    ensures WhereTurns(params)[i] == Ok(Some(Get(params[i], "name")))
  {
    assert WhereTurns(params)[i] == WhereTurn(params[i]);
  }

  // ---------------------------------------------------------------------
  // generateDeleteSql

  function Head(provider: string, service: string, resource: string): string
  {
    "/*+ delete */\n" + ("DELETE FROM " + provider + "." + service + "." + resource + "\n")
  }

  /** `${c} = '{{ ${c} }}'`. */
  function Condition(c: Option<Json>): string
  {
    PropKey(c) + " = '{{ " + PropKey(c) + " }}'"
  }

  function ConditionList(cs: seq<Option<Json>>): (ls: seq<string>)
    ensures |ls| == |cs|
  {
    seq(|cs|, i requires 0 <= i < |cs| => Condition(cs[i]))
  }

  /** The statement for the given conditions. */
  function Statement(provider: string, service: string, resource: string, cs: seq<Option<Json>>): string
  {
    Head(provider, service, resource) +
    (if |cs| > 0 then "WHERE " + Join(ConditionList(cs), "\nAND ") + ";" else "")
  }

  /** `generateDeleteSql(method, ...)`. */
  function DeleteSql(operation: Json, provider: string, service: string, resource: string): Result<string>
  {
    var cs :- WhereConditions(operation);
    Ok(Statement(provider, service, resource, cs))
  }

  /** The statement, appended to step by step. */
  method GenerateDeleteSql(operation: Json, provider: string, service: string, resource: string)
    returns (r: Result<string>)
    ensures r == DeleteSql(operation, provider, service, resource)
  {
    var sql := "/*+ delete */\n";
    sql := sql + ("DELETE FROM " + provider + "." + service + "." + resource + "\n");
    var cs :- GetWhereConditions(operation);
    if |cs| > 0 {
      var head, joined := sql, Join(ConditionList(cs), "\nAND ");
      sql := sql + "WHERE ";
      sql := sql + joined;
      sql := sql + ";";
      AppendFour(head, "WHERE ", joined, ";");
    }
    return Ok(sql);
  }

  const EndpointCondition := "endpoint = '{{ endpoint }}';"

  lemma EndpointConditionText()
    ensures Condition(Endpoint) + ";" == EndpointCondition
  {
  }

  /** A `WHERE` clause closed by `;` ends with the last condition. */
  lemma WhereEnds(head: string, joined: string, last: string, tail: string)
    requires EndsWith(joined, last) && tail == last + ";"
    ensures StartsWith(head + ("WHERE " + joined + ";"), head + "WHERE ")
    ensures EndsWith(head + ("WHERE " + joined + ";"), tail)
  {
    var sql := head + ("WHERE " + joined + ";");
    assert sql[..|head + "WHERE "|] == head + "WHERE ";
    assert sql[|sql| - |tail|..] == joined[|joined| - |last|..] + ";";
  }

  /** With `endpoint` last among the conditions, the statement names the
      resource, always has a `WHERE` clause, and ends with the endpoint
      condition and `;`. */
  lemma StatementShape(provider: string, service: string, resource: string, cs: seq<Option<Json>>)
    requires |cs| > 0 && cs[|cs| - 1] == Endpoint
    ensures var sql := Statement(provider, service, resource, cs);
            StartsWith(sql, Head(provider, service, resource) + "WHERE ") &&
            EndsWith(sql, EndpointCondition)
  {
    var ls := ConditionList(cs);
    assert ls[|ls| - 1] == Condition(Endpoint);
    JoinLast(ls, "\nAND ");
    EndpointConditionText();
    WhereEnds(Head(provider, service, resource), Join(ls, "\nAND "), Condition(Endpoint), EndpointCondition);
  }

  /** Since the conditions are never empty, the `WHERE` clause is always
      there and the statement ends with `endpoint` and `;`. */
  lemma DeleteSqlShape(operation: Json, provider: string, service: string, resource: string)
    requires DeleteSql(operation, provider, service, resource).Ok?
    ensures var sql := DeleteSql(operation, provider, service, resource).value;
            StartsWith(sql, Head(provider, service, resource) + "WHERE ") &&
            EndsWith(sql, EndpointCondition)
  {
    WhereConditionsShape(operation);
    StatementShape(provider, service, resource, WhereConditions(operation).value);
  }

  // ---------------------------------------------------------------------
  // createDeleteExample

  function ExampleText(description: string, sql: string): string
  {
    "\n## `DELETE` example\n\n" + description + "\n\n```sql\n" + sql + "```\n"
  }

  /** `createDeleteExample`: nothing without methods or delete methods,
      otherwise the example of the first delete method. */
  function CreateDeleteExample(provider: string, service: string, resource: string, resourceData: Json): Result<string>
  {
    if !Truthy(resourceData) || !TruthyOpt(Get(resourceData, "methods")) then Ok("")
    else
      var ms :- VerbMethods(resourceData, "delete");
      if ms == [] then Ok("")
      else
        var description :- Read(Get(ms[0], "operation"), "description");
        var sql :- DeleteSql(Get(ms[0], "operation").value, provider, service, resource);
        Ok(ExampleText(JsString(Or(description, Str(""))), sql))
  }

  /** The example is empty exactly when the resource has no methods or no
      delete method; otherwise it is that of the first delete method. */
  lemma CreateDeleteExampleEmpty(provider: string, service: string, resource: string, resourceData: Json)
    requires CreateDeleteExample(provider, service, resource, resourceData).Ok?
    ensures var r := CreateDeleteExample(provider, service, resource, resourceData).value;
            (r == "" <==> !Truthy(resourceData) || !TruthyOpt(Get(resourceData, "methods")) ||
                          VerbMethods(resourceData, "delete") == Ok([])) &&
            (r != "" ==>
               var op := Get(VerbMethods(resourceData, "delete").value[0], "operation");
               op.Some? && !op.value.Null? &&
               r == ExampleText(JsString(Or(Get(op.value, "description"), Str(""))),
                                DeleteSql(op.value, provider, service, resource).value))
  {
    var r := CreateDeleteExample(provider, service, resource, resourceData).value;
    if Truthy(resourceData) && TruthyOpt(Get(resourceData, "methods")) && VerbMethods(resourceData, "delete") != Ok([]) {
      var op := Get(VerbMethods(resourceData, "delete").value[0], "operation").value;
      var d := JsString(Or(Get(op, "description"), Str("")));
      var sql := DeleteSql(op, provider, service, resource).value;
      assert ExampleText(d, sql)[0] == '\n';
    }
  }
}
