/** The `REPLACE` example of a resource page
    (src/docgen/resource/examples/update-example.js): a `SET` over the body
    properties of the first replace method and a `WHERE` over its path
    parameters. */
module UpdateExample {
  import opened Base
  import opened Text
  import opened JsonModel
  import opened JsonText
  import opened ExampleParts

  // ---------------------------------------------------------------------
  // getUpdateProperties

  /** The body properties of the operation. */
  function BodyEntries(operation: Json): seq<Entry>
  {
    var schema := BodySchema(operation);
    if schema.Some? && TruthyOpt(Get(schema.value, "properties")) then Entries(Get(schema.value, "properties").value)
    else []
  }

  /** `schema.required`, or `null` when there is no schema. */
  function RequiredOf(operation: Json): Json
  {
    var schema := BodySchema(operation);
    if schema.Some? then Or(Get(schema.value, "required"), Null) else Null
  }

  /** One turn of the loop over the body properties: `endpoint` is
      skipped; computing `required` and `type` may throw, and only the name
      of the pushed property is used afterwards. */
  function PropTurn(e: Entry, required: Json): (r: Result<Option<string>>)
    ensures r.Ok? && r.value.Some? ==> r.value.value == e.key && e.key != "endpoint"
    ensures e.key == "endpoint" ==> r == Ok(None)
  {
    if e.key == "endpoint" then Ok(None)
    else
      var _ :- Includes(required, e.key);
      if e.value.Null? then Err(TypeError + ": cannot read properties of null (reading 'type')")
      else Ok(Some(e.key))
  }

  function PropTurns(es: seq<Entry>, required: Json): (ts: seq<Result<Option<string>>>)
    ensures |ts| == |es|
  {
    seq(|es|, i requires 0 <= i < |es| => PropTurn(es[i], required))
  }

  /** `getUpdateProperties(operation)`, by name. */
  function UpdateProps(operation: Json): Result<seq<string>>
  {
    var es := BodyEntries(operation);
    Gather(PropTurns(es, RequiredOf(operation)), |es|)
  }

  /** The loop of `getUpdateProperties`. */
  method GetUpdateProperties(operation: Json) returns (r: Result<seq<string>>)
    ensures r == UpdateProps(operation)
  {
    var es := BodyEntries(operation);
    r := CollectTurns(PropTurns(es, RequiredOf(operation)));
  }

  /** The keys of the first `n` entries, leaving out `endpoint`. */
  function KeysWithoutEndpoint(es: seq<Entry>, n: nat): seq<string>
    requires n <= |es|
  {
    if n == 0 then []
    else KeysWithoutEndpoint(es, n - 1) + (if es[n - 1].key == "endpoint" then [] else [es[n - 1].key])
  }

  lemma {:induction false} PropsUpTo(es: seq<Entry>, required: Json, n: nat)
    requires n <= |es| && Gather(PropTurns(es, required), n).Ok?
    ensures Gather(PropTurns(es, required), n) == Ok(KeysWithoutEndpoint(es, n))
  {
    if n > 0 {
      var ts := PropTurns(es, required);
      assert ts[n - 1] == PropTurn(es[n - 1], required);
      PropsUpTo(es, required, n - 1);
      GatherStep(ts, n - 1, KeysWithoutEndpoint(es, n - 1));
      assert ts[n - 1].Ok?;
      if es[n - 1].key == "endpoint" {
        assert ts[n - 1] == Ok(None);
        assert KeysWithoutEndpoint(es, n) == KeysWithoutEndpoint(es, n - 1);
      } else {
        assert ts[n - 1].value == Some(es[n - 1].key);
        assert Gather(ts, n) == Ok(KeysWithoutEndpoint(es, n - 1) + [es[n - 1].key]);
      }
    }
  }

  /** The properties are the body's keys in order, all but `endpoint`. */
  lemma UpdatePropsKeys(operation: Json)
    requires UpdateProps(operation).Ok?
    ensures UpdateProps(operation).value == KeysWithoutEndpoint(BodyEntries(operation), |BodyEntries(operation)|)
    ensures "endpoint" !in UpdateProps(operation).value
  {
    var es := BodyEntries(operation);
    PropsUpTo(es, RequiredOf(operation), |es|);
    KeysWithoutEndpointFree(es, |es|);
  }

  lemma {:induction false} KeysWithoutEndpointFree(es: seq<Entry>, n: nat)
    requires n <= |es|
    ensures "endpoint" !in KeysWithoutEndpoint(es, n)
  {
    if n > 0 {
      KeysWithoutEndpointFree(es, n - 1);
    }
  }

  // ---------------------------------------------------------------------
  // getPrimaryKeys

  /** One turn of the loop over the parameters: the name of a path
      parameter that is not `endpoint`. */
  function KeyTurn(param: Json): (r: Result<Option<Option<Json>>>)
    ensures r.Err? <==> param.Null?
    ensures r.Ok? && r.value.Some? ==> r.value.value != Some(Str("endpoint"))
  {
    if param.Null? then Err(TypeError + ": cannot read properties of null (reading 'in')")
    else if Get(param, "in") == Some(Str("path")) && Get(param, "name") != Some(Str("endpoint")) then Ok(Some(Get(param, "name")))
    else Ok(None)
  }

  function KeyTurns(params: seq<Json>): (ts: seq<Result<Option<Option<Json>>>>)
    ensures |ts| == |params|
  {
    seq(|params|, i requires 0 <= i < |params| => KeyTurn(params[i]))
  }

  /** `getPrimaryKeys(operation)`: the path parameters other than
      `endpoint`, or `name` when there are none. */
  function PrimaryKeys(operation: Json): Result<seq<Option<Json>>>
  {
    var params :- ParamsOf(operation);
    var keys :- Gather(KeyTurns(params), |params|);
    if keys == [] then Ok([Some(Str("name"))]) else Ok(keys)
  }

  /** The loop of `getPrimaryKeys`, then the default. */
  method GetPrimaryKeys(operation: Json) returns (r: Result<seq<Option<Json>>>)
    ensures r == PrimaryKeys(operation)
  {
    var params :- ParamsOf(operation);
    var keys :- CollectTurns(KeyTurns(params));
    if keys == [] {
      keys := [Some(Str("name"))];
    }
    return Ok(keys);
  }

  /** A path parameter other than `endpoint`. */
  predicate IsKeyParam(param: Json)
  {
    Get(param, "in") == Some(Str("path")) && Get(param, "name") != Some(Str("endpoint"))
  }

  /** The names of the key parameters among the first `n`, in order. */
  function KeyNames(params: seq<Json>, n: nat): seq<Option<Json>>
    requires n <= |params|
  {
    if n == 0 then []
    else KeyNames(params, n - 1) + (if IsKeyParam(params[n - 1]) then [Get(params[n - 1], "name")] else [])
  }

  lemma {:induction false} KeysUpTo(params: seq<Json>, n: nat)
    requires n <= |params| && Gather(KeyTurns(params), n).Ok?
    ensures Gather(KeyTurns(params), n) == Ok(KeyNames(params, n))
  {
    if n > 0 {
      var ts := KeyTurns(params);
      GatherOkBefore(ts, n - 1, n);
      KeysUpTo(params, n - 1);
      GatherStep(ts, n - 1, KeyNames(params, n - 1));
      assert ts[n - 1] == KeyTurn(params[n - 1]);
      assert !params[n - 1].Null?;
      if IsKeyParam(params[n - 1]) {
        assert ts[n - 1] == Ok(Some(Get(params[n - 1], "name")));
      } else {
        assert ts[n - 1] == Ok(None);
        assert KeyNames(params, n) == KeyNames(params, n - 1) + [] == KeyNames(params, n - 1);
      }
    }
  }

  /** The primary keys are the names of the path parameters other than
      `endpoint`, in parameter order, or `name` alone when there are none. */
  lemma PrimaryKeysExact(operation: Json)
    requires PrimaryKeys(operation).Ok?
    ensures var params := ParamsOf(operation).value;
            var names := KeyNames(params, |params|);
            PrimaryKeys(operation).value == if names == [] then [Some(Str("name"))] else names
  {
    var params := ParamsOf(operation).value;
    KeysUpTo(params, |params|);
  }

  /** There is always a key and never `endpoint`: `name` alone when no
      parameter is a path parameter other than `endpoint`, and otherwise the
      names of those path parameters. */
  lemma PrimaryKeysShape(operation: Json)
    requires PrimaryKeys(operation).Ok?
    ensures var keys := PrimaryKeys(operation).value;
            keys != [] && Some(Str("endpoint")) !in keys
    ensures var params := ParamsOf(operation).value;
            (forall i :: 0 <= i < |params| ==> KeyTurn(params[i]) == Ok(None)) ==>
              PrimaryKeys(operation).value == [Some(Str("name"))]
    ensures var params := ParamsOf(operation).value;
            (exists i :: 0 <= i < |params| && KeyTurn(params[i]) != Ok(None)) ==>
              forall k :: k in PrimaryKeys(operation).value ==>
                exists i :: 0 <= i < |params| && Get(params[i], "in") == Some(Str("path")) && Get(params[i], "name") == k
  {
    var params := ParamsOf(operation).value;
    var ts := KeyTurns(params);
    assert Gather(ts, |ts|).Ok?;
    GatherFirst(ts, |ts|);
    var gathered := Gather(ts, |ts|).value;
    assert forall i :: 0 <= i < |params| ==> ts[i] == KeyTurn(params[i]);
    forall k | k in gathered ensures k != Some(Str("endpoint")) {
      var i := GatherWitness(ts, k);
    }
    forall k | k in gathered
      ensures exists i :: 0 <= i < |params| && Get(params[i], "in") == Some(Str("path")) && Get(params[i], "name") == k
    {
      var i := GatherWitness(ts, k);
      assert ts[i] == KeyTurn(params[i]);
    }
  }

  // ---------------------------------------------------------------------
  // generateUpdateSql

  const NoProperties := "-- No properties found for REPLACE"

  /** `${x} = '{{ ${x} }}'`. */
  function Plain(x: string): string
  {
    x + " = '{{ " + x + " }}'"
  }

  function SetList(props: seq<string>): (cs: seq<string>)
    ensures |cs| == |props|
  {
    seq(|props|, i requires 0 <= i < |props| => Plain(props[i]))
  }

  function KeyList(keys: seq<Option<Json>>): (cs: seq<string>)
    ensures |cs| == |keys|
  {
    seq(|keys|, i requires 0 <= i < |keys| => Plain(PropKey(keys[i])))
  }

  function Head(provider: string, service: string, resource: string): string
  {
    "/*+ update */\nREPLACE " + provider + "." + service + "." + resource + "\n"
  }

  const EndpointLine := "AND endpoint = '{{ endpoint }}';"

  const DataNameLine := "AND data__name = '{{ data__name }}'\n"

  /** The statement for properties and keys that are not empty. */
  function Statement(provider: string, service: string, resource: string, props: seq<string>,
                     keys: seq<Option<Json>>, dataName: bool): string
  {
    Head(provider, service, resource) + "SET \n" + Join(SetList(props), ",\n") + "\n" +
    (if keys != [] then "WHERE \n" + Join(KeyList(keys), "\nAND ") + "\n" else "") +
    (if dataName then DataNameLine else "") + EndpointLine
  }

  /** `resourceData.methods[method.name].operation.requestBody`: the spread
      method's name looks the method up again; reading through a missing
      method or operation throws. */
  function AgainBody(m: Json, resourceData: Json): Result<Option<Json>>
    requires TruthyOpt(Get(resourceData, "methods"))
  {
    var again := Get(Get(resourceData, "methods").value, PropKey(Get(m, "name")));
    var againOp :- Read(again, "operation");
    Read(againOp, "requestBody")
  }

  /** `generateUpdateSql(method, ...)`: the `data__name` condition is added
      when the method found again by name has a truthy request body. The
      caller has read the operation's description, so the operation is
      there. */
  function UpdateSql(m: Json, provider: string, service: string, resource: string, resourceData: Json): Result<string>
    requires TruthyOpt(Get(resourceData, "methods"))
    requires Get(m, "operation").Some? && !Get(m, "operation").value.Null?
  {
    var operation := Get(m, "operation").value;
    var props :- UpdateProps(operation);
    if props == [] then Ok(NoProperties)
    else
      var keys :- PrimaryKeys(operation);
      var body :- AgainBody(m, resourceData);
      Ok(Statement(provider, service, resource, props, keys, TruthyOpt(body)))
  }

  /** With keys, which there always are, the statement sets every property,
      has a `WHERE` clause over the keys, and ends with the endpoint
      condition. */
  lemma StatementShape(provider: string, service: string, resource: string, props: seq<string>,
                       keys: seq<Option<Json>>, dataName: bool)
    requires keys != []
    ensures var sql := Statement(provider, service, resource, props, keys, dataName);
            StartsWith(sql, Head(provider, service, resource) + "SET \n" + Join(SetList(props), ",\n") + "\n" +
                            ("WHERE \n" + Join(KeyList(keys), "\nAND ") + "\n")) &&
            EndsWith(sql, EndpointLine) && sql != NoProperties
  {
    var sql := Statement(provider, service, resource, props, keys, dataName);
    var pre := Head(provider, service, resource) + "SET \n" + Join(SetList(props), ",\n") + "\n" +
               ("WHERE \n" + Join(KeyList(keys), "\nAND ") + "\n");
    var mid := if dataName then DataNameLine else "";
    assert sql == pre + mid + EndpointLine;
    Framed(pre, mid);
    EndpointLast(sql);
  }

  lemma Framed(pre: string, mid: string)
    ensures StartsWith(pre + mid + EndpointLine, pre) && EndsWith(pre + mid + EndpointLine, EndpointLine)
  {
    assert pre + mid + EndpointLine == pre + (mid + EndpointLine);
    StartsWithConcat(pre, mid + EndpointLine);
    EndsWithConcat(pre + mid, EndpointLine);
  }

  /** A text ending in the endpoint condition is not the no-properties
      message. */
  lemma EndpointLast(sql: string)
    requires EndsWith(sql, EndpointLine)
    ensures sql != NoProperties
  {
    assert sql[|sql| - 1] == EndpointLine[|EndpointLine| - 1] == ';';
  }

  /** The message for no properties comes exactly when the body has no
      property but `endpoint`; otherwise the statement is built from the
      properties and the primary keys. */
  lemma UpdateSqlShape(m: Json, provider: string, service: string, resource: string, resourceData: Json)
    requires TruthyOpt(Get(resourceData, "methods"))
    requires Get(m, "operation").Some? && !Get(m, "operation").value.Null?
    requires UpdateSql(m, provider, service, resource, resourceData).Ok?
    ensures var operation := Get(m, "operation").value;
            var sql := UpdateSql(m, provider, service, resource, resourceData).value;
            (sql == NoProperties <==> UpdateProps(operation).value == []) &&
            (sql != NoProperties ==>
               PrimaryKeys(operation).Ok? && AgainBody(m, resourceData).Ok? &&
               sql == Statement(provider, service, resource, UpdateProps(operation).value,
                                PrimaryKeys(operation).value, TruthyOpt(AgainBody(m, resourceData).value)))
  {
    var operation := Get(m, "operation").value;
    var props := UpdateProps(operation).value;
    if props != [] {
      PrimaryKeysShape(operation);
      var keys := PrimaryKeys(operation).value;
      StatementShape(provider, service, resource, props, keys, TruthyOpt(AgainBody(m, resourceData).value));
    }
  }

  // ---------------------------------------------------------------------
  // createUpdateExample

  function ExampleText(description: string, sql: string): string
  {
    "\n## `REPLACE` example\n\n" + description + "\n\n```sql\n" + sql + "```\n"
  }

  /** `createUpdateExample`: nothing without methods or replace methods,
      otherwise the example of the first replace method. */
  function CreateUpdateExample(provider: string, service: string, resource: string, resourceData: Json): Result<string>
  {
    if !Truthy(resourceData) || !TruthyOpt(Get(resourceData, "methods")) then Ok("")
    else
      var ms :- VerbMethods(resourceData, "replace");
      if ms == [] then Ok("")
      else
        var description :- Read(Get(ms[0], "operation"), "description");
        var sql :- UpdateSql(ms[0], provider, service, resource, resourceData);
        Ok(ExampleText(JsString(Or(description, Str(""))), sql))
  }

  /** The example is empty exactly when the resource has no methods or no
      replace method; otherwise it is that of the first replace method. */
  lemma CreateUpdateExampleEmpty(provider: string, service: string, resource: string, resourceData: Json)
    requires CreateUpdateExample(provider, service, resource, resourceData).Ok?
    ensures var r := CreateUpdateExample(provider, service, resource, resourceData).value;
            (r == "" <==> !Truthy(resourceData) || !TruthyOpt(Get(resourceData, "methods")) ||
                          VerbMethods(resourceData, "replace") == Ok([])) &&
            (r != "" ==>
               var m := VerbMethods(resourceData, "replace").value[0];
               Get(m, "operation").Some? && !Get(m, "operation").value.Null? &&
               r == ExampleText(JsString(Or(Get(Get(m, "operation").value, "description"), Str(""))),
                                UpdateSql(m, provider, service, resource, resourceData).value))
  {
    var r := CreateUpdateExample(provider, service, resource, resourceData).value;
    if Truthy(resourceData) && TruthyOpt(Get(resourceData, "methods")) && VerbMethods(resourceData, "replace") != Ok([]) {
      var m := VerbMethods(resourceData, "replace").value[0];
      var d := JsString(Or(Get(Get(m, "operation").value, "description"), Str("")));
      var sql := UpdateSql(m, provider, service, resource, resourceData).value;
      assert |ExampleText(d, sql)| > 0;
    }
  }
}
