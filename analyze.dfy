/** The mapping analyser (src/providerdev/analyze.js): one CSV row per
    operation of a spec, with its main 2xx response schema, its tags and the
    resource, method and sql verb an existing `x-stackQL-resources` section
    maps it to. */
module Analyze {
  import opened Base
  import opened Text
  import opened JsonModel
  import opened JsonText
  import opened Utils
  import DocOperation
  import Generate

  const TypeError := DocOperation.TypeError

  // ---------------------------------------------------------------------
  // extractMain2xxResponse

  /** `ref.split('/').pop()`; a `$ref` that is not a string throws. */
  function RefName(ref: Json): (r: Result<string>)
    ensures r.Ok? <==> ref.Str?
    ensures r.Ok? ==> '/' !in r.value
  {
    if ref.Str? then Ok(LastSegment(ref.s, '/')) else Err(TypeError + ": $ref.split is not a function")
  }

  /** The schema name of one response: the last segment of the
      `application/json` schema's `$ref`, or of its `items.$ref` when the
      schema is an array, and otherwise `''`. Reading `content` of `null`
      throws. */
  function SchemaRefName(response: Json): (r: Result<string>)
    ensures r.Ok? ==> '/' !in r.value
  {
    if response.Null? then Err(TypeError + ": cannot read properties of null (reading 'content')")
    else
      var content := Or(Get(response, "content"), Obj([]));
      var appJson := Or(Get(content, "application/json"), Obj([]));
      var schema := Or(Get(appJson, "schema"), Obj([]));
      var ref := Get(schema, "$ref");
      if TruthyOpt(ref) then RefName(ref.value)
      else if Get(schema, "type") == Some(Str("array")) then
        var itemRef := Get(Or(Get(schema, "items"), Obj([])), "$ref");
        if TruthyOpt(itemRef) then RefName(itemRef.value) else Ok("")
      else Ok("")
  }

  /** The scan of `Object.entries(responseObj)` from entry `i` on: it stops at
      the first code starting with `2`. */
  function Main2xxFrom(es: seq<Entry>, i: nat): Result<string>
    decreases |es| - i
  {
    if i >= |es| then Ok("")
    else if StartsWith(es[i].key, "2") then SchemaRefName(es[i].value)
    else Main2xxFrom(es, i + 1)
  }

  /** `extractMain2xxResponse`. */
  method ExtractMain2xxResponse(responseObj: Json) returns (r: Result<string>)
    ensures r == Main2xxFrom(Entries(responseObj), 0)
  {
    var es := Entries(responseObj);
    var i := 0;
    while i < |es|
      invariant 0 <= i <= |es|
      invariant Main2xxFrom(es, 0) == Main2xxFrom(es, i)
    {
      if StartsWith(es[i].key, "2") {
        return SchemaRefName(es[i].value);
      }
      i := i + 1;
    }
    return Ok("");
  }

  /** Only the first response code starting with `2` is inspected: the
      result is its schema name, whatever the later codes hold. */
  lemma {:induction false} Main2xxFirst(es: seq<Entry>, i: nat, k: nat)
    requires i <= k < |es| && StartsWith(es[k].key, "2")
    requires forall j :: i <= j < k ==> !StartsWith(es[j].key, "2")
    ensures Main2xxFrom(es, i) == SchemaRefName(es[k].value)
    decreases k - i
  {
    if i < k {
      Main2xxFirst(es, i + 1, k);
    }
  }

  /** Without a 2xx code the schema name is `''`. */
  lemma {:induction false} Main2xxNone(es: seq<Entry>, i: nat)
    requires forall j :: i <= j < |es| ==> !StartsWith(es[j].key, "2")
    ensures Main2xxFrom(es, i) == Ok("")
    decreases |es| - i
  {
    if i < |es| {
      Main2xxNone(es, i + 1);
    }
  }

  // ---------------------------------------------------------------------
  // findExistingMapping

  /** The resource, method and sql verb an operation is mapped to; all
      empty when it is not mapped. */
  datatype Mapping = Mapping(resourceName: string, methodName: string, sqlVerb: string)

  /** `method.operation?.$ref === pathRef` for one method entry; reading `operation` of `null`
      throws. */
  function MethodMatches(entry: Json, pathRef: string): (r: Result<bool>)
    ensures r.Err? <==> entry.Null?
  {
    if entry.Null? then Err(TypeError + ": cannot read properties of null (reading 'operation')")
    else
      var op := Get(entry, "operation");
      Ok(op.Some? && Get(op.value, "$ref") == Some(Str(pathRef)))
  }

  /** The first method from position `i` on whose operation is `pathRef`. */
  function FirstMatchFrom(methods: seq<Entry>, pathRef: string, i: nat): (r: Result<Option<nat>>)
    ensures r.Ok? && r.value.Some? ==>
              i <= r.value.value < |methods| && MethodMatches(methods[r.value.value].value, pathRef) == Ok(true) &&
              forall j :: i <= j < r.value.value ==> MethodMatches(methods[j].value, pathRef) == Ok(false)
    ensures r.Ok? && r.value.None? ==> forall j :: i <= j < |methods| ==> MethodMatches(methods[j].value, pathRef) == Ok(false)
    decreases |methods| - i
  {
    if i >= |methods| then Ok(None)
    else
      var m := MethodMatches(methods[i].value, pathRef);
      if m.Err? then Err(m.error)
      else if m.value then Ok(Some(i))
      else FirstMatchFrom(methods, pathRef, i + 1)
  }

  /** `methodRef.$ref === ref` for one item; `null` items throw. */
  function ItemIs(item: Json, ref: string): Result<bool>
  {
    if item.Null? then Err(TypeError + ": cannot read properties of null (reading '$ref')")
    else Ok(Get(item, "$ref") == Some(Str(ref)))
  }

  /** The inner `for ... of` over a verb's list from item `k` on; it breaks
      at the first item naming `ref`. */
  function ListHasFrom(items: seq<Json>, ref: string, k: nat): (r: Result<bool>)
    ensures r == Ok(true) ==> exists j :: k <= j < |items| && ItemIs(items[j], ref) == Ok(true)
    ensures r == Ok(false) ==> forall j :: k <= j < |items| ==> ItemIs(items[j], ref) == Ok(false)
    decreases |items| - k
  {
    if k >= |items| then Ok(false)
    else
      var here := ItemIs(items[k], ref);
      if here.Err? then here
      else if here.value then Ok(true)
      else ListHasFrom(items, ref, k + 1)
  }

  /** Whether a verb's list names `ref`: a string iterates over characters,
      which have no `$ref`, and other values that are not arrays are not
      iterable. */
  function ListHas(methods: Json, ref: string): Result<bool>
  {
    match methods
    case Arr(items) => ListHasFrom(items, ref, 0)
    case Str(_) => Ok(false)
    case _ => Err(TypeError + ": methods is not iterable")
  }

  /** The outer loop over `Object.entries(resource.sqlVerbs || {})` from
      verb `i` on, with `cur` the verb found so far; the `break` leaves only
      the inner loop, so a later verb naming the method replaces `cur`. */
  function VerbFrom(verbs: seq<Entry>, ref: string, i: nat, cur: string): Result<string>
    decreases |verbs| - i
  {
    if i >= |verbs| then Ok(cur)
    else
      var has :- ListHas(verbs[i].value, ref);
      VerbFrom(verbs, ref, i + 1, if has then verbs[i].key else cur)
  }

  /** The sql verb lists of a resource. */
  function VerbLists(resource: Json): seq<Entry>
  {
    Entries(Or(Get(resource, "sqlVerbs"), Obj([])))
  }

  /** The verb of the method named by `ref`, `'exec'` by default. */
  function SqlVerbOf(resource: Json, ref: string): Result<string>
  {
    VerbFrom(VerbLists(resource), ref, 0, "exec")
  }

  /** When no list from verb `i` on names the method, the verb found so far
      stands. */
  lemma {:induction false} VerbFromNone(verbs: seq<Entry>, ref: string, i: nat, cur: string)
    requires forall j :: i <= j < |verbs| ==> ListHas(verbs[j].value, ref) == Ok(false)
    ensures VerbFrom(verbs, ref, i, cur) == Ok(cur)
    decreases |verbs| - i
  {
    if i < |verbs| {
      VerbFromNone(verbs, ref, i + 1, cur);
    }
  }

  /** The last verb whose list names the method wins. */
  lemma {:induction false} VerbFromLast(verbs: seq<Entry>, ref: string, i: nat, cur: string, k: nat)
    requires i <= k < |verbs| && ListHas(verbs[k].value, ref) == Ok(true)
    requires forall j :: k < j < |verbs| ==> ListHas(verbs[j].value, ref) == Ok(false)
    requires VerbFrom(verbs, ref, i, cur).Ok?
    ensures VerbFrom(verbs, ref, i, cur) == Ok(verbs[k].key)
    decreases k - i
  {
    if i < k {
      var has := ListHas(verbs[i].value, ref).value;
      VerbFromLast(verbs, ref, i + 1, if has then verbs[i].key else cur, k);
    } else {
      VerbFromNone(verbs, ref, k + 1, verbs[k].key);
    }
  }

  /** `'exec'` when no list names the method, and otherwise the last verb
      whose list does. */
  lemma SqlVerbOfLast(resource: Json, ref: string)
    requires SqlVerbOf(resource, ref).Ok?
    ensures var verbs := VerbLists(resource);
            ((forall j :: 0 <= j < |verbs| ==> ListHas(verbs[j].value, ref) == Ok(false)) ==>
               SqlVerbOf(resource, ref) == Ok("exec")) &&
            (forall k :: (0 <= k < |verbs| && ListHas(verbs[k].value, ref) == Ok(true) &&
                          (forall j :: k < j < |verbs| ==> ListHas(verbs[j].value, ref) == Ok(false))) ==>
               SqlVerbOf(resource, ref) == Ok(verbs[k].key))
  {
    var verbs := VerbLists(resource);
    if forall j :: 0 <= j < |verbs| ==> ListHas(verbs[j].value, ref) == Ok(false) {
      VerbFromNone(verbs, ref, 0, "exec");
    }
    forall k | 0 <= k < |verbs| && ListHas(verbs[k].value, ref) == Ok(true) &&
               (forall j :: k < j < |verbs| ==> ListHas(verbs[j].value, ref) == Ok(false))
      ensures SqlVerbOf(resource, ref) == Ok(verbs[k].key)
    {
      VerbFromLast(verbs, ref, 0, "exec", k);
    }
  }

  /** The methods of a resource. */
  function MethodsOf(resource: Json): seq<Entry>
  {
    Entries(Or(Get(resource, "methods"), Obj([])))
  }

  /** The search over `Object.entries(stackQLResources)` from resource `i`
      on: the first method whose operation is `pathRef` gives the mapping;
      reading `methods` of a `null` resource throws. */
  function SearchFrom(resources: seq<Entry>, pathRef: string, i: nat): Result<Mapping>
    decreases |resources| - i
  {
    if i >= |resources| then Ok(Mapping("", "", ""))
    else
      var res := resources[i].value;
      if res.Null? then Err(TypeError + ": cannot read properties of null (reading 'methods')")
      else
        var found :- FirstMatchFrom(MethodsOf(res), pathRef, 0);
        if found.None? then SearchFrom(resources, pathRef, i + 1)
        else
          var name := MethodsOf(res)[found.value].key;
          var verb :- SqlVerbOf(res, Generate.MethodRef(resources[i].key, name));
          Ok(Mapping(resources[i].key, name, verb))
  }

  /** `spec.components?.['x-stackQL-resources'] || {}`. */
  function StackQLResources(spec: Json): seq<Entry>
  {
    var comps := Get(spec, "components");
    var xr := if comps.None? || comps.value.Null? then None else Get(comps.value, "x-stackQL-resources");
    Entries(Or(xr, Obj([])))
  }

  /** `findExistingMapping`. */
  function FindMapping(spec: Json, pathRef: string): Result<Mapping>
  {
    if spec.Null? then Err(TypeError + ": cannot read properties of null (reading 'components')")
    else SearchFrom(StackQLResources(spec), pathRef, 0)
  }

  /** No method of resource `k` has operation `pathRef`. */
  ghost predicate NoMatchIn(resources: seq<Entry>, pathRef: string, k: nat)
    requires k < |resources|
  {
    !resources[k].value.Null? && FirstMatchFrom(MethodsOf(resources[k].value), pathRef, 0) == Ok(None)
  }

  /** Resource `k` holds the first method with operation `pathRef`, and the
      mapping names it with its sql verb. */
  ghost predicate FoundIn(resources: seq<Entry>, pathRef: string, k: nat, mp: Mapping)
    requires k < |resources|
  {
    var res := resources[k].value;
    !res.Null? && FirstMatchFrom(MethodsOf(res), pathRef, 0).Ok? &&
    FirstMatchFrom(MethodsOf(res), pathRef, 0).value.Some? &&
    mp.resourceName == resources[k].key &&
    mp.methodName == MethodsOf(res)[FirstMatchFrom(MethodsOf(res), pathRef, 0).value.value].key &&
    SqlVerbOf(res, Generate.MethodRef(resources[k].key, mp.methodName)) == Ok(mp.sqlVerb)
  }

  /** The mapping found is the first method, in resource and method order,
      whose operation is `pathRef`; when there is none, all three names are
      empty. */
  lemma {:induction false} SearchFromFirst(resources: seq<Entry>, pathRef: string, i: nat)
    requires SearchFrom(resources, pathRef, i).Ok?
    ensures var mp := SearchFrom(resources, pathRef, i).value;
            ((forall k :: i <= k < |resources| ==> NoMatchIn(resources, pathRef, k)) && mp == Mapping("", "", "")) ||
            (exists k :: i <= k < |resources| && FoundIn(resources, pathRef, k, mp) &&
               forall k' :: i <= k' < k ==> NoMatchIn(resources, pathRef, k'))
    decreases |resources| - i
  {
    if i < |resources| {
      var res := resources[i].value;
      var found := FirstMatchFrom(MethodsOf(res), pathRef, 0);
      if found.value.None? {
        SearchFromFirst(resources, pathRef, i + 1);
        var mp := SearchFrom(resources, pathRef, i).value;
        assert NoMatchIn(resources, pathRef, i);
        if !(forall k :: i + 1 <= k < |resources| ==> NoMatchIn(resources, pathRef, k)) || mp != Mapping("", "", "") {
          var k :| i + 1 <= k < |resources| && FoundIn(resources, pathRef, k, mp) &&
                   forall k' :: i + 1 <= k' < k ==> NoMatchIn(resources, pathRef, k');
          assert forall k' :: i <= k' < k ==> NoMatchIn(resources, pathRef, k');
        }
      } else {
        assert FoundIn(resources, pathRef, i, SearchFrom(resources, pathRef, i).value);
      }
    }
  }

  /** One resource of the search. */
  lemma SearchStep(resources: seq<Entry>, pathRef: string, i: nat)
    requires i < |resources| && !resources[i].value.Null?
    ensures var res := resources[i].value;
            var found := FirstMatchFrom(MethodsOf(res), pathRef, 0);
            SearchFrom(resources, pathRef, i) ==
              if found.Err? then Err(found.error)
              else if found.value.None? then SearchFrom(resources, pathRef, i + 1)
              else
                var name := MethodsOf(res)[found.value.value].key;
                var verb := SqlVerbOf(res, Generate.MethodRef(resources[i].key, name));
                if verb.Err? then Err(verb.error) else Ok(Mapping(resources[i].key, name, verb.value))
  {
  }

  /** `findExistingMapping` with its loops. */
  method FindExistingMapping(spec: Json, pathRef: string) returns (r: Result<Mapping>)
    ensures r == FindMapping(spec, pathRef)
  {
    if spec.Null? {
      return Err(TypeError + ": cannot read properties of null (reading 'components')");
    }
    r := SearchResources(StackQLResources(spec), pathRef);
  }

  /** The outer loop over the resources. */
  method SearchResources(resources: seq<Entry>, pathRef: string) returns (r: Result<Mapping>)
    ensures r == SearchFrom(resources, pathRef, 0)
  {
    var i := 0;
    while i < |resources|
      invariant 0 <= i <= |resources|
      invariant SearchFrom(resources, pathRef, 0) == SearchFrom(resources, pathRef, i)
    {
      var res := resources[i].value;
      if res.Null? {
        return Err(TypeError + ": cannot read properties of null (reading 'methods')");
      }
      var found := FindMethod(MethodsOf(res), pathRef);
      SearchStep(resources, pathRef, i);
      if found.Err? {
        return Err(found.error);
      }
      if found.value.Some? {
        var name := MethodsOf(res)[found.value.value].key;
        var verb := FindSqlVerb(res, Generate.MethodRef(resources[i].key, name));
        if verb.Err? {
          return Err(verb.error);
        }
        return Ok(Mapping(resources[i].key, name, verb.value));
      }
      i := i + 1;
    }
    return Ok(Mapping("", "", ""));
  }

  /** The inner loop over the methods of one resource. */
  method FindMethod(methods: seq<Entry>, pathRef: string) returns (r: Result<Option<nat>>)
    ensures r == FirstMatchFrom(methods, pathRef, 0)
  {
    var j := 0;
    while j < |methods|
      invariant 0 <= j <= |methods|
      invariant FirstMatchFrom(methods, pathRef, 0) == FirstMatchFrom(methods, pathRef, j)
    {
      var m := MethodMatches(methods[j].value, pathRef);
      if m.Err? {
        return Err(m.error);
      }
      if m.value {
        return Ok(Some(j));
      }
      j := j + 1;
    }
    return Ok(None);
  }

  /** The loop that finds the sql verb of a method reference. */
  method FindSqlVerb(resource: Json, ref: string) returns (r: Result<string>)
    ensures r == SqlVerbOf(resource, ref)
  {
    var verbs := VerbLists(resource);
    var sqlVerb := "exec";
    var i := 0;
    while i < |verbs|
      invariant 0 <= i <= |verbs|
      invariant SqlVerbOf(resource, ref) == VerbFrom(verbs, ref, i, sqlVerb)
    {
      var methods := verbs[i].value;
      if methods.Arr? {
        var k := 0;
        while k < |methods.items|
          invariant 0 <= k <= |methods.items|
          invariant ListHasFrom(methods.items, ref, 0) == ListHasFrom(methods.items, ref, k)
        {
          var here := ItemIs(methods.items[k], ref);
          if here.Err? {
            return Err(here.error);
          }
          if here.value {
            sqlVerb := verbs[i].key;
            break;
          }
          k := k + 1;
        }
      } else if !methods.Str? {
        return Err(TypeError + ": methods is not iterable");
      }
      i := i + 1;
    }
    return Ok(sqlVerb);
  }

  // ---------------------------------------------------------------------
  // The CSV row

  /** A field wrapped in double quotes when it contains a comma; quotes in
      the field are left as they are. */
  function CsvField(s: string): string
  {
    if ',' in s then "\"" + s + "\"" else s
  }

  /** The eleven values of a row. */
  datatype Row = Row(filename: string, path: string, operationId: string, formattedOpId: string,
                     verb: string, responseRef: string, tags: string, formattedTags: string,
                     resourceName: string, methodName: string, sqlVerb: string)

  function Values(row: Row): seq<string>
  {
    [row.filename, row.path, row.operationId, row.formattedOpId, row.verb, row.responseRef,
     row.tags, row.formattedTags, row.resourceName, row.methodName, row.sqlVerb]
  }

  /** The written fields: path, operation id and tag fields are quoted when
      they hold a comma, the others are written as they are. */
  function Fields(row: Row): seq<string>
  {
    [row.filename, CsvField(row.path), CsvField(row.operationId), CsvField(row.formattedOpId), row.verb,
     row.responseRef, CsvField(row.tags), CsvField(row.formattedTags), row.resourceName, row.methodName,
     row.sqlVerb]
  }

  function RowLine(row: Row): string
  {
    Join(Fields(row), ",")
  }

  /** Joining parts free of the separator and splitting again gives the
      parts back. */
  lemma {:induction false} SplitOfJoin(parts: seq<string>, c: char)
    requires |parts| >= 1
    requires forall i :: 0 <= i < |parts| ==> c !in parts[i]
    ensures Split(Join(parts, [c]), c) == parts
    decreases |parts|
  {
    if |parts| == 1 {
      SplitNoSeparator(parts[0], c);
    } else {
      SplitOfJoin(parts[1..], c);
      SplitAt(parts[0], Join(parts[1..], [c]), c);
      assert parts == [parts[0]] + parts[1..];
    }
  }

  /** A row whose values hold no comma reads back as those values. */
  lemma RowLineRoundTrip(row: Row)
    requires forall i :: 0 <= i < |Values(row)| ==> ',' !in Values(row)[i]
    ensures Split(RowLine(row), ',') == Values(row)
  {
    assert Fields(row) == Values(row);
    SplitOfJoin(Values(row), ',');
  }

  /** A comma makes the field quoted, and only a comma does. */
  lemma CsvFieldQuoted(s: string)
    ensures CsvField(s) != s <==> ',' in s
    ensures ',' in s ==> CsvField(s)[0] == '"' && CsvField(s)[|CsvField(s)| - 1] == '"' &&
                         CsvField(s)[1..|CsvField(s)| - 1] == s
  {
    if ',' in s {
      assert |CsvField(s)| == |s| + 2;
    }
  }

  // ---------------------------------------------------------------------
  // One operation's row

  /** The tag names, when every tag is a string. */
  function TagNames(items: seq<Json>): seq<string>
    requires forall i :: 0 <= i < |items| ==> items[i].Str?
  {
    seq(|items|, i requires 0 <= i < |items| => items[i].s)
  }

  /** The row of one operation. An `operationId` or a tag that is not a
      string throws in `camelToSnake`, and `tags` that is not an array has
      no `join`. */
  function OperationRow(spec: Json, filename: string, pathKey: string, verb: string, op: Json): Result<Row>
  {
    var opId := Or(Get(op, "operationId"), Str(""));
    if !opId.Str? then Err(TypeError + ": str.replace is not a function")
    else
      var formattedOpId := if opId.s == "" then "" else CamelToSnake(opId.s);
      var responseRef :- Main2xxFrom(Entries(Or(Get(op, "responses"), Obj([]))), 0);
      var tags := Or(Get(op, "tags"), Arr([]));
      if !tags.Arr? then Err(TypeError + ": tagsList.join is not a function")
      else if exists i :: 0 <= i < |tags.items| && !tags.items[i].Str? then Err(TypeError + ": str.replace is not a function")
      else
        var names := TagNames(tags.items);
        var mapping :- FindMapping(spec, Generate.EncodeRefPath(pathKey, verb));
        Ok(Row(filename, pathKey, opId.s, formattedOpId, verb, responseRef, Join(names, "|"),
               Join(seq(|names|, i requires 0 <= i < |names| => CamelToSnake(names[i])), "|"),
               mapping.resourceName, mapping.methodName, mapping.sqlVerb))
  }

  /** What the inner loop writes for one entry of a path item: nothing for a
      value that is not an object. */
  function RowTurn(spec: Json, filename: string, pathKey: string, e: Entry): (r: Result<Option<string>>)
    ensures !IsObjectLike(e.value) ==> r == Ok(None)
    ensures IsObjectLike(e.value) ==> (r.Ok? <==> OperationRow(spec, filename, pathKey, e.key, e.value).Ok?)
    ensures r.Ok? && r.value.Some? ==> r.value.value == RowLine(OperationRow(spec, filename, pathKey, e.key, e.value).value) + "\n"
  {
    if !IsObjectLike(e.value) then Ok(None)
    else
      var row := OperationRow(spec, filename, pathKey, e.key, e.value);
      if row.Err? then Err(row.error) else Ok(Some(RowLine(row.value) + "\n"))
  }

  function RowTurns(spec: Json, filename: string, pathKey: string, ops: seq<Entry>): (ts: seq<Result<Option<string>>>)
    ensures |ts| == |ops|
  {
    seq(|ops|, i requires 0 <= i < |ops| => RowTurn(spec, filename, pathKey, ops[i]))
  }

  /** The lines written by the first `n` turns; the first error ends the
      run. */
  function LinesUpTo(turns: seq<Result<Option<string>>>, n: nat): Result<seq<string>>
    requires n <= |turns|
  {
    if n == 0 then Ok([])
    else
      var prev := LinesUpTo(turns, n - 1);
      if prev.Err? then prev
      else if turns[n - 1].Err? then Err(turns[n - 1].error)
      else if turns[n - 1].value.None? then prev
      else Ok(prev.value + [turns[n - 1].value.value])
  }

  /** The number of entries holding an object. */
  function CountObjects(ops: seq<Entry>): nat
  {
    if ops == [] then 0 else CountObjects(ops[..|ops| - 1]) + (if IsObjectLike(ops[|ops| - 1].value) then 1 else 0)
  }

  /** One line per object entry: the values that are not objects write
      nothing. */
  lemma {:induction false} LinesUpToCount(spec: Json, filename: string, pathKey: string, ops: seq<Entry>, n: nat)
    requires n <= |ops|
    requires LinesUpTo(RowTurns(spec, filename, pathKey, ops), n).Ok?
    ensures |LinesUpTo(RowTurns(spec, filename, pathKey, ops), n).value| == CountObjects(ops[..n])
  {
    if n > 0 {
      LinesUpToCount(spec, filename, pathKey, ops, n - 1);
      assert ops[..n][..n - 1] == ops[..n - 1];
      assert RowTurns(spec, filename, pathKey, ops)[n - 1] == RowTurn(spec, filename, pathKey, ops[n - 1]);
    }
  }

  /** The lines of one path; `Object.entries(null)` throws. */
  function PathLines(spec: Json, filename: string, e: Entry): Result<seq<string>>
  {
    if e.value.Null? then Err(TypeError + ": cannot convert undefined or null to object")
    else
      var ops := Entries(e.value);
      LinesUpTo(RowTurns(spec, filename, e.key, ops), |ops|)
  }

  /** The lines of the first `n` paths. */
  function PathsUpTo(spec: Json, filename: string, paths: seq<Entry>, n: nat): Result<seq<string>>
    requires n <= |paths|
  {
    ConcatEach(e => PathLines(spec, filename, e), paths, n)
  }

  /** The lines `analyze` writes for one spec file; reading `paths` of
      `null` throws. */
  function SpecLines(filename: string, spec: Json): Result<seq<string>>
  {
    if spec.Null? then Err(TypeError + ": cannot read properties of null (reading 'paths')")
    else PathsUpTo(spec, filename, Generate.PathEntries(spec), |Generate.PathEntries(spec)|)
  }

  /** The number of operations (object entries) over the first `n` paths. */
  function OperationCount(paths: seq<Entry>, n: nat): nat
    requires n <= |paths|
  {
    if n == 0 then 0 else OperationCount(paths, n - 1) + CountObjects(Entries(paths[n - 1].value))
  }

  /** A spec file gets one line per operation. */
  lemma {:induction false} PathsUpToCount(spec: Json, filename: string, paths: seq<Entry>, n: nat)
    requires n <= |paths|
    requires PathsUpTo(spec, filename, paths, n).Ok?
    ensures |PathsUpTo(spec, filename, paths, n).value| == OperationCount(paths, n)
  {
    if n > 0 {
      PathsUpToCount(spec, filename, paths, n - 1);
      var ops := Entries(paths[n - 1].value);
      LinesUpToCount(spec, filename, paths[n - 1].key, ops, |ops|);
      assert ops[..|ops|] == ops;
    }
  }

  /** The loops of `analyze` over the paths and operations of one spec. */
  method AnalyzeSpec(filename: string, spec: Json) returns (r: Result<seq<string>>)
    ensures r == SpecLines(filename, spec)
  {
    if spec.Null? {
      return Err(TypeError + ": cannot read properties of null (reading 'paths')");
    }
    var paths := Generate.PathEntries(spec);
    var f := e => PathLines(spec, filename, e);
    var lines := [];
    for i := 0 to |paths|
      invariant ConcatEach(f, paths, i) == Ok(lines)
    {
      ConcatEachStep(f, paths, i, lines);
      var more := PathOne(spec, filename, paths[i]);
      if more.Err? {
        ConcatEachErrStays(f, paths, i + 1, |paths|);
        return Err(more.error);
      }
      lines := lines + more.value;
    }
    return Ok(lines);
  }

  /** The lines of one path; `Object.entries(null)` throws. */
  method PathOne(spec: Json, filename: string, e: Entry) returns (r: Result<seq<string>>)
    ensures r == PathLines(spec, filename, e)
  {
    if e.value.Null? {
      return Err(TypeError + ": cannot convert undefined or null to object");
    }
    r := PathRows(spec, filename, e.key, Entries(e.value));
  }

  /** The inner loop over the entries of one path item. */
  method PathRows(spec: Json, filename: string, pathKey: string, ops: seq<Entry>) returns (r: Result<seq<string>>)
    ensures r == LinesUpTo(RowTurns(spec, filename, pathKey, ops), |ops|)
  {
    var turns := RowTurns(spec, filename, pathKey, ops);
    var lines := [];
    for j := 0 to |ops|
      invariant LinesUpTo(turns, j) == Ok(lines)
    {
      var turn := turns[j];
      LinesStep(turns, j, lines);
      if turn.Err? {
        LinesErrStays(turns, j + 1, |ops|);
        return Err(turn.error);
      }
      if turn.value.Some? {
        lines := lines + [turn.value.value];
      }
    }
    return Ok(lines);
  }

  lemma LinesStep(turns: seq<Result<Option<string>>>, j: nat, lines: seq<string>)
    requires j < |turns| && LinesUpTo(turns, j) == Ok(lines)
    ensures turns[j].Err? ==> LinesUpTo(turns, j + 1).Err?
    ensures turns[j].Ok? ==>
              LinesUpTo(turns, j + 1) == Ok(if turns[j].value.Some? then lines + [turns[j].value.value] else lines)
  {
  }

  lemma {:induction false} LinesErrStays(turns: seq<Result<Option<string>>>, n: nat, m: nat)
    requires n <= m <= |turns|
    requires LinesUpTo(turns, n).Err?
    ensures LinesUpTo(turns, m) == LinesUpTo(turns, n)
    decreases m - n
  {
    if n < m {
      LinesErrStays(turns, n, m - 1);
    }
  }
}
