/** The parameters table of a resource page
    (src/docgen/resource/parameters.js): the parameters of every method of
    the resource, merged by name, required ones first, each group sorted by
    name. */
module ParamsSection {
  import opened Base
  import opened Text
  import opened JsonModel
  import opened JsonText
  import opened ExampleParts
  import opened DocMethods

  /** The method kinds whose methods are read, in order. */
  const MethodTypes: seq<string> := ["select", "insert", "update", "replace", "delete", "exec"]

  // ---------------------------------------------------------------------
  // Every method

  function EntryValues(es: seq<Entry>): (vs: seq<Json>)
    ensures |vs| == |es|
  {
    seq(|es|, i requires 0 <= i < |es| => es[i].value)
  }

  /** `allMethodTypes.flatMap(...)` over the first `n` kinds. */
  function MethodsUpTo(resourceData: Json, api: Json, n: nat): Result<seq<Json>>
    requires n <= |MethodTypes|
  {
    if n == 0 then Ok([])
    else
      var prev :- MethodsUpTo(resourceData, api, n - 1);
      var ms :- SqlMethods(resourceData, api, MethodTypes[n - 1]);
      Ok(prev + EntryValues(ms))
  }

  function AllMethods(resourceData: Json, api: Json): Result<seq<Json>>
  {
    MethodsUpTo(resourceData, api, |MethodTypes|)
  }

  lemma {:induction false} MethodsErrStays(resourceData: Json, api: Json, n: nat, m: nat)
    requires n <= m <= |MethodTypes|
    requires MethodsUpTo(resourceData, api, n).Err?
    ensures MethodsUpTo(resourceData, api, m) == MethodsUpTo(resourceData, api, n)
    decreases m - n
  {
    if n < m {
      MethodsErrStays(resourceData, api, n, m - 1);
    }
  }

  /** One more kind: its methods are appended, or its failure is the
      result. */
  lemma MethodsStep(resourceData: Json, api: Json, n: nat, prev: seq<Json>, ms: Result<seq<Entry>>)
    requires n < |MethodTypes| && MethodsUpTo(resourceData, api, n) == Ok(prev)
    requires ms == SqlMethods(resourceData, api, MethodTypes[n])
    ensures ms.Err? ==> AllMethods(resourceData, api) == Err(ms.error)
    ensures ms.Ok? ==> MethodsUpTo(resourceData, api, n + 1) == Ok(prev + EntryValues(ms.value))
  {
    if ms.Err? {
      MethodsErrStays(resourceData, api, n + 1, |MethodTypes|);
    }
  }

  /** The `flatMap` as a loop over the kinds. */
  method CollectMethods(resourceData: Json, api: Json) returns (r: Result<seq<Json>>)
    ensures r == AllMethods(resourceData, api)
  {
    var kinds := MethodTypes;
    var all := [];
    var i := 0;
    while i < |kinds|
      invariant kinds == MethodTypes && 0 <= i <= |kinds|
      invariant MethodsUpTo(resourceData, api, i) == Ok(all)
    {
      var ms := GetSqlMethodsWithOrderedFields(resourceData, api, kinds[i]);
      MethodsStep(resourceData, api, i, all, ms);
      if ms.Err? {
        return Err(ms.error);
      }
      all := all + EntryValues(ms.value);
      i := i + 1;
    }
    return Ok(all);
  }

  // ---------------------------------------------------------------------
  // Merging by name

  /** `params[name] = details` for each entry, in order. */
  function PutAll(acc: seq<Entry>, es: seq<Entry>): seq<Entry>
    decreases |es|
  {
    if es == [] then acc else PutAll(Put(acc, es[0].key, es[0].value), es[1..])
  }

  /** The value of the last entry with key `k`. */
  function Last(es: seq<Entry>, k: string): Option<Json>
    decreases |es|
  {
    if es == [] then None
    else
      var later := Last(es[1..], k);
      if later.Some? then later
      else if es[0].key == k then Some(es[0].value)
      else None
  }

  lemma {:induction false} PutAllAppend(acc: seq<Entry>, a: seq<Entry>, b: seq<Entry>)
    ensures PutAll(acc, a + b) == PutAll(PutAll(acc, a), b)
    decreases |a|
  {
    if a != [] {
      assert (a + b)[0] == a[0];
      assert (a + b)[1..] == a[1..] + b;
      PutAllAppend(Put(acc, a[0].key, a[0].value), a[1..], b);
    } else {
      assert a + b == b;
    }
  }

  /** The last write of a name wins; a name never written keeps its value. */
  lemma {:induction false} PutAllLookup(acc: seq<Entry>, es: seq<Entry>, k: string)
    ensures Lookup(PutAll(acc, es), k) == if Last(es, k).Some? then Last(es, k) else Lookup(acc, k)
    decreases |es|
  {
    if es != [] {
      PutAllLookup(Put(acc, es[0].key, es[0].value), es[1..], k);
    }
  }

  /** The names afterwards are the old ones and the written ones, each
      once. */
  lemma {:induction false} PutAllKeys(acc: seq<Entry>, es: seq<Entry>)
    requires UniqueKeys(acc)
    ensures UniqueKeys(PutAll(acc, es))
    ensures forall x :: x in Keys(PutAll(acc, es)) <==> x in Keys(acc) || x in Keys(es)
    decreases |es|
  {
    if es != [] {
      var acc' := Put(acc, es[0].key, es[0].value);
      PutKeepsUnique(acc, es[0].key, es[0].value);
      PutKeySet(acc, es[0].key, es[0].value);
      PutAllKeys(acc', es[1..]);
      assert Keys(es) == [es[0].key] + Keys(es[1..]);
    }
  }

  /** The loop over one method's parameters. */
  method AssignAll(acc: seq<Entry>, es: seq<Entry>) returns (r: seq<Entry>)
    ensures r == PutAll(acc, es)
  {
    r := acc;
    var i := 0;
    while i < |es|
      invariant 0 <= i <= |es|
      invariant PutAll(acc, es) == PutAll(r, es[i..])
    {
      assert es[i..][0] == es[i] && es[i..][1..] == es[i + 1..];
      r := Put(r, es[i].key, es[i].value);
      i := i + 1;
    }
  }

  const NullRead := TypeError + ": cannot read properties of null"

  /** The parameters of kind `field` of the first `n` methods, merged by
      name; reading from a `null` method throws. */
  function Merged(ms: seq<Json>, field: string, n: nat): Result<seq<Entry>>
    requires n <= |ms|
  {
    if n == 0 then Ok([])
    else
      var prev :- Merged(ms, field, n - 1);
      if ms[n - 1].Null? then Err(NullRead)
      else Ok(PutAll(prev, EntriesOr(Get(ms[n - 1], field))))
  }

  /** Every parameter entry of kind `field` of the first `n` methods, in
      order. */
  function Flat(ms: seq<Json>, field: string, n: nat): seq<Entry>
    requires n <= |ms|
  {
    if n == 0 then [] else Flat(ms, field, n - 1) + EntriesOr(Get(ms[n - 1], field))
  }

  /** Merging fails exactly on a `null` method, and otherwise writes every
      entry in order. */
  lemma {:induction false} MergedFlat(ms: seq<Json>, field: string, n: nat)
    requires n <= |ms|
    ensures Merged(ms, field, n).Ok? <==> forall i :: 0 <= i < n ==> !ms[i].Null?
    ensures Merged(ms, field, n).Err? ==> Merged(ms, field, n) == Err(NullRead)
    ensures Merged(ms, field, n).Ok? ==> Merged(ms, field, n).value == PutAll([], Flat(ms, field, n))
  {
    if n > 0 {
      MergedFlat(ms, field, n - 1);
      if Merged(ms, field, n).Ok? {
        PutAllAppend([], Flat(ms, field, n - 1), EntriesOr(Get(ms[n - 1], field)));
      }
    }
  }

  /** A later method overwrites what an earlier one wrote under the same
      name; the merged names are exactly the names written, each once. */
  lemma MergedLookup(ms: seq<Json>, field: string, k: string)
    requires Merged(ms, field, |ms|).Ok?
    ensures Lookup(Merged(ms, field, |ms|).value, k) == Last(Flat(ms, field, |ms|), k)
    ensures UniqueKeys(Merged(ms, field, |ms|).value)
    ensures k in Keys(Merged(ms, field, |ms|).value) <==> k in Keys(Flat(ms, field, |ms|))
  {
    MergedFlat(ms, field, |ms|);
    PutAllLookup([], Flat(ms, field, |ms|), k);
    PutAllKeys([], Flat(ms, field, |ms|));
  }

  /** Both merges; they read the same methods, so they fail together. */
  function Collected(ms: seq<Json>): Result<(seq<Entry>, seq<Entry>)>
  {
    var required :- Merged(ms, "requiredParams", |ms|);
    var optional :- Merged(ms, "optionalParams", |ms|);
    Ok((required, optional))
  }

  /** The `forEach` over the methods, filling both maps. */
  method CollectParams(ms: seq<Json>) returns (r: Result<(seq<Entry>, seq<Entry>)>)
    ensures r == Collected(ms)
  {
    var required := [];
    var optional := [];
    var i := 0;
    while i < |ms|
      invariant 0 <= i <= |ms|
      invariant Merged(ms, "requiredParams", i) == Ok(required)
      invariant Merged(ms, "optionalParams", i) == Ok(optional)
    {
      if ms[i].Null? {
        MergedFlat(ms, "requiredParams", |ms|);
        return Err(NullRead);
      }
      required := AssignAll(required, EntriesOr(Get(ms[i], "requiredParams")));
      optional := AssignAll(optional, EntriesOr(Get(ms[i], "optionalParams")));
      i := i + 1;
    }
    return Ok((required, optional));
  }

  // ---------------------------------------------------------------------
  // Rows

  /** `${x || ''}`. */
  function TextOr(x: Option<Json>): string
  {
    if TruthyOpt(x) then JsString(x.value) else ""
  }

  /** The opening of the row of parameter `name`. */
  function RowHead(name: string): string
  {
    "\n<tr id=\"parameter-" + name + "\">"
  }

  /** The cells of the row: the name, the type and the description. */
  function RowCells(name: string, t: Option<Json>, d: Option<Json>): string
  {
    "\n    <td><CopyableCode code=\"" + name + "\" /></td>\n" +
    "    <td><code>" + TextOr(t) + "</code></td>\n    <td>" + TextOr(d) + "</td>\n</tr>"
  }

  function RowText(name: string, t: Option<Json>, d: Option<Json>): string
  {
    RowHead(name) + RowCells(name, t, d)
  }

  /** The row of one parameter; reading `type` of missing or `null` details
      throws, and then `description` can be read too. */
  function Row(params: seq<Entry>, name: string): Result<string>
  {
    var t :- Read(Lookup(params, name), "type");
    Ok(RowText(name, t, Get(Lookup(params, name).value, "description")))
  }

  /** `Object.keys(params).sort()`. */
  function SortedNames(params: seq<Entry>): seq<string>
  {
    SortStrings(Keys(params))
  }

  function RowTurns(params: seq<Entry>): (ts: seq<Result<string>>)
    ensures |ts| == |SortedNames(params)|
  {
    var names := SortedNames(params);
    seq(|names|, i requires 0 <= i < |names| => Row(params, names[i]))
  }

  /** `addParamRows(params)`. */
  function Rows(params: seq<Entry>): Result<string>
  {
    Concat(RowTurns(params), |SortedNames(params)|)
  }

  /** The row loop of `addParamRows`. */
  method AddParamRows(params: seq<Entry>) returns (r: Result<string>)
    ensures r == Rows(params)
  {
    var names := SortStrings(Keys(params));
    ghost var turns := RowTurns(params);
    assert names == SortedNames(params) && |turns| == |names|;
    var rows := "";
    var i := 0;
    while i < |names|
      invariant 0 <= i <= |names|
      invariant Concat(turns, i) == Ok(rows)
    {
      var row := Row(params, names[i]);
      assert turns[i] == row;
      ConcatStep(turns, i, rows);
      if row.Err? {
        ConcatErrStays(turns, i + 1, |names|);
        return Err(row.error);
      }
      rows := rows + row.value;
      i := i + 1;
    }
    return Ok(rows);
  }

  /** The rows are in ascending order of name, one per parameter; each
      carries the id `parameter-<name>`, and it throws exactly when the
      details are `null`. */
  lemma RowsOrder(params: seq<Entry>)
    ensures Sorted(SortedNames(params))
    ensures multiset(SortedNames(params)) == multiset(Keys(params))
    ensures forall i :: 0 <= i < |SortedNames(params)| ==>
              var name := SortedNames(params)[i];
              (RowTurns(params)[i].Err? <==> Lookup(params, name) == Some(Null)) &&
              (RowTurns(params)[i].Ok? ==> StartsWith(RowTurns(params)[i].value, RowHead(name)))
  {
    var names := SortedNames(params);
    forall i | 0 <= i < |names|
      ensures var name := names[i];
              (RowTurns(params)[i].Err? <==> Lookup(params, name) == Some(Null)) &&
              (RowTurns(params)[i].Ok? ==> StartsWith(RowTurns(params)[i].value, RowHead(name)))
    {
      var name := names[i];
      assert name in multiset(Keys(params));
      LookupFound(params, name);
      RowStart(params, name);
    }
  }

  lemma RowStart(params: seq<Entry>, name: string)
    requires Lookup(params, name).Some?
    ensures Row(params, name).Err? <==> Lookup(params, name) == Some(Null)
    ensures Row(params, name).Ok? ==> StartsWith(Row(params, name).value, RowHead(name))
  {
    if Row(params, name).Ok? {
      var details := Lookup(params, name).value;
      var cells := RowCells(name, Get(details, "type"), Get(details, "description"));
      assert (RowHead(name) + cells)[..|RowHead(name)|] == RowHead(name);
    }
  }

  /** A type or description that is missing or falsy is written as an empty
      cell. */
  lemma RowEmptyCells(params: seq<Entry>, name: string)
    requires Row(params, name).Ok?
    requires !TruthyOpt(Get(Lookup(params, name).value, "type"))
    requires !TruthyOpt(Get(Lookup(params, name).value, "description"))
    ensures Row(params, name).value == RowText(name, None, None)
  {
  }

  // ---------------------------------------------------------------------
  // createParamsSection

  const Intro := "## Parameters\n\nParameters can be passed in the `WHERE` clause of a query. " +
                 "Check the [Methods](#methods) section to see which parameters are required or optional for each operation.\n\n"

  const TableHead := "<table>\n<thead>\n    <tr>\n    <th>Name</th>\n    <th>Datatype</th>\n    <th>Description</th>\n    </tr>\n</thead>\n<tbody>"

  const TableEnd := "\n</tbody>\n</table>"

  /** `createParamsSection(resourceData, dereferencedAPI)`. */
  function ParamsSectionText(resourceData: Json, api: Json): Result<string>
  {
    var ms :- AllMethods(resourceData, api);
    var maps :- Collected(ms);
    var requiredRows :- Rows(maps.0);
    var optionalRows :- Rows(maps.1);
    Ok(Intro + TableHead + requiredRows + optionalRows + TableEnd)
  }

  /** The required rows come before the optional ones; a name required by
      one method and optional in another has a row in both groups. */
  lemma ParamsSectionShape(resourceData: Json, api: Json, k: string)
    requires ParamsSectionText(resourceData, api).Ok?
    ensures AllMethods(resourceData, api).Ok? && Collected(AllMethods(resourceData, api).value).Ok?
    ensures var maps := Collected(AllMethods(resourceData, api).value).value;
            Rows(maps.0).Ok? && Rows(maps.1).Ok? &&
            ParamsSectionText(resourceData, api).value == Intro + TableHead + Rows(maps.0).value + Rows(maps.1).value + TableEnd &&
            (k in Keys(maps.0) && k in Keys(maps.1) ==> k in SortedNames(maps.0) && k in SortedNames(maps.1))
  {
    var maps := Collected(AllMethods(resourceData, api).value).value;
    RowsOrder(maps.0);
    RowsOrder(maps.1);
    if k in Keys(maps.0) && k in Keys(maps.1) {
      assert k in multiset(Keys(maps.0)) && k in multiset(Keys(maps.1));
    }
  }

  /** `createParamsSection` as written. */
  method CreateParamsSection(resourceData: Json, api: Json) returns (r: Result<string>)
    ensures r == ParamsSectionText(resourceData, api)
  {
    var content := Intro;
    var ms :- CollectMethods(resourceData, api);
    var maps :- CollectParams(ms);
    content := content + TableHead;
    var requiredRows :- AddParamRows(maps.0);
    content := content + requiredRows;
    var optionalRows :- AddParamRows(maps.1);
    content := content + optionalRows;
    content := content + TableEnd;
    return Ok(content);
  }
}
