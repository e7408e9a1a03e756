/** `$ref` extraction in `src/providerdev/split.js`: `getAllRefs` collects every
    string stored under a `$ref` key at any depth, and `getPathLevelRefs` the
    refs reachable from the non-operation keys of a path item. A JavaScript
    `Set` is the sequence of its elements in insertion order. */
module SplitRefs {
  import opened Base
  import opened JsonModel

  /** The HTTP verbs that are operations of a path item. */
  const Operations: seq<string> := ["get", "post", "put", "delete", "patch", "options", "head", "trace"]

  /** Number of children `getAllRefs` iterates over. */
  function Width(j: Json): nat
  {
    match j
    case Arr(items) => |items|
    case Obj(es) => |es|
    case _ => 0
  }

  /** The value of the `i`-th array item or object entry. */
  function Child(j: Json, i: nat): Json
    requires i < Width(j)
  {
    match j
    case Arr(items) => items[i]
    case Obj(es) => es[i].value
  }

  /** The refs `getAllRefs(j)` holds after its loop has visited the first `n`
      children of `j`. */
  function RefsUpTo(j: Json, n: nat): seq<string>
    requires n <= Width(j)
    decreases j, n
  {
    if n == 0 then []
    else
      var acc := RefsUpTo(j, n - 1);
      match j
      case Arr(items) => SetAddAll(acc, RefsUpTo(items[n - 1], Width(items[n - 1])))
      case Obj(es) =>
        var e := es[n - 1];
        if e.key == "$ref" && e.value.Str? then SetAdd(acc, e.value.s)
        else if IsObjectLike(e.value) then SetAddAll(acc, RefsUpTo(e.value, Width(e.value)))
        else acc
  }

  /** `getAllRefs(j)`. */
  function RefsOf(j: Json): seq<string>
  {
    RefsUpTo(j, Width(j))
  }

  /** `r` is stored under a `$ref` key reached from `j` along the child
      positions `p`. */
  ghost predicate RefAt(j: Json, p: seq<int>, r: string)
    decreases |p|
  {
    |p| > 0 && 0 <= p[0] < Width(j) &&
    ((j.Obj? && |p| == 1 && j.entries[p[0]].key == "$ref" && j.entries[p[0]].value == Str(r))
     || RefAt(Child(j, p[0]), p[1..], r))
  }

  /** `getAllRefs` in the source's own form: a loop over the children that
      adds the refs of each nested value to a local set. */
  method GetAllRefs(j: Json) returns (refs: seq<string>)
    ensures refs == RefsOf(j)
    decreases j
  {
    refs := [];
    var i := 0;
    while i < Width(j)
      invariant 0 <= i <= Width(j)
      invariant refs == RefsUpTo(j, i)
    {
      var value := Child(j, i);
      if j.Obj? && j.entries[i].key == "$ref" && value.Str? {
        refs := SetAdd(refs, value.s);
      } else if IsObjectLike(value) {
        var sub := GetAllRefs(value);
        refs := AddEach(refs, sub);
      }
      i := i + 1;
    }
  }

  /** Every ref collected from the first `n` children has a position. */
  lemma {:induction false} RefsUpToSound(j: Json, n: nat, r: string) returns (p: seq<int>)
    requires n <= Width(j)
    requires r in RefsUpTo(j, n)
    ensures RefAt(j, p, r) && p[0] < n
    decreases j, n
  {
    var acc := RefsUpTo(j, n - 1);
    if r in acc {
      p := RefsUpToSound(j, n - 1, r);
    } else {
      var c := Child(j, n - 1);
      if j.Obj? && j.entries[n - 1].key == "$ref" && c.Str? {
        p := [n - 1];
      } else {
        var q := RefsUpToSound(c, Width(c), r);
        p := [n - 1 as int] + q;
        assert p[1..] == q;
      }
    }
  }

  /** Every ref at a position below the first `n` children is collected. */
  lemma {:induction false} RefsUpToComplete(j: Json, n: nat, p: seq<int>, r: string)
    requires n <= Width(j)
    requires RefAt(j, p, r) && p[0] < n
    ensures r in RefsUpTo(j, n)
    decreases j, n
  {
    if p[0] < n - 1 {
      RefsUpToComplete(j, n - 1, p, r);
    } else {
      var c := Child(j, n - 1);
      if RefAt(c, p[1..], r) {
        RefsUpToComplete(c, Width(c), p[1..], r);
      }
    }
  }

  /** getAllRefs returns exactly the strings stored under a `$ref` key at any
      depth, siblings of a `$ref` included. */
  lemma RefsOfExactly(j: Json, r: string)
    ensures r in RefsOf(j) <==> exists p :: RefAt(j, p, r)
  {
    if r in RefsOf(j) {
      var p := RefsUpToSound(j, Width(j), r);
      assert RefAt(j, p, r);
      assert exists q :: RefAt(j, q, r);
    }
    forall p | RefAt(j, p, r)
      ensures r in RefsOf(j)
    {
      RefsUpToComplete(j, Width(j), p, r);
    }
  }

  /** The refs of a nested value are among the refs of the value holding it. */
  lemma ChildRefs(j: Json, i: nat, r: string)
    requires i < Width(j)
    requires r in RefsOf(Child(j, i))
    ensures r in RefsOf(j)
  {
    var c := Child(j, i);
    var q := RefsUpToSound(c, Width(c), r);
    var p: seq<int> := [i] + q;
    assert p[1..] == q;
    RefsUpToComplete(j, Width(j), p, r);
  }

  lemma {:induction false} RefsNoDup(j: Json, n: nat)
    requires n <= Width(j)
    ensures NoDup(RefsUpTo(j, n))
    decreases n
  {
    if n > 0 {
      RefsNoDup(j, n - 1);
      var acc := RefsUpTo(j, n - 1);
      var c := Child(j, n - 1);
      if j.Obj? && j.entries[n - 1].key == "$ref" && c.Str? {
        SetAddNoDup(acc, c.s);
      } else if IsObjectLike(c) {
        SetAddAllNoDup(acc, RefsOf(c));
      }
    }
  }

  /** A string directly under a `$ref` key of an object is one of its refs. */
  lemma DirectRef(j: Json, m: nat, s: string)
    requires j.Obj? && m < |j.entries| && j.entries[m] == Entry("$ref", Str(s))
    ensures s in RefsOf(j)
  {
    var p: seq<int> := [m];
    assert RefAt(j, p, s);
    RefsUpToComplete(j, Width(j), p, s);
  }

  /** The message of the TypeError thrown when a non-string `$ref` value
      reaches `ref.split('/')` in resolveReferences. */
  const NonStringRef := "TypeError: ref.split is not a function"

  /** One item of a path-level `parameters` array: its `$ref` alone when that
      is truthy; otherwise, for an object or array, the `$ref` of its `schema`
      followed by every ref nested in it. A truthy `$ref` that is not a string
      ends up in the set and makes resolveReferences throw. */
  function ParamRefs(acc: seq<string>, param: Json): Result<seq<string>>
  {
    if param.Null? then Err("TypeError: cannot read properties of null (reading '$ref')")
    else
      var ref := Get(param, "$ref");
      if TruthyOpt(ref) then
        if ref.value.Str? then Ok(SetAdd(acc, ref.value.s)) else Err(NonStringRef)
      else if IsObjectLike(param) then
        var schema := Get(param, "schema");
        var schemaRef := if TruthyOpt(schema) then Get(schema.value, "$ref") else None;
        if TruthyOpt(schemaRef) && !schemaRef.value.Str? then Err(NonStringRef)
        else
          var acc1 := if TruthyOpt(schemaRef) then SetAdd(acc, schemaRef.value.s) else acc;
          Ok(SetAddAll(acc1, RefsOf(param)))
      else Ok(acc)
  }

  /** The set after the first `n` items of a path-level `parameters` array. */
  function ParamsUpTo(params: seq<Json>, n: nat): Result<seq<string>>
    requires n <= |params|
  {
    if n == 0 then Ok([])
    else match ParamsUpTo(params, n - 1)
      case Err(e) => Err(e)
      case Ok(acc) => ParamRefs(acc, params[n - 1])
  }

  /** Once an item throws, the loop ends with that error. */
  lemma {:induction false} ParamsErrStays(params: seq<Json>, i: nat, n: nat)
    requires i <= n <= |params|
    requires ParamsUpTo(params, i).Err?
    ensures ParamsUpTo(params, n) == ParamsUpTo(params, i)
    decreases n
  {
    if n > i {
      ParamsErrStays(params, i, n - 1);
    }
  }

  /** The refs of `pathItem.parameters` when it is truthy: an array is
      iterated, a string yields characters without a `$ref`, anything else is
      not iterable. */
  function PathParamRefs(item: seq<Entry>): Result<seq<string>>
  {
    var params := Lookup(item, "parameters");
    if !TruthyOpt(params) then Ok([])
    else match params.value
      case Arr(ps) => ParamsUpTo(ps, |ps|)
      case Str(_) => Ok([])
      case _ => Err("TypeError: pathItem.parameters is not iterable")
  }

  /** `acc` extended with the refs of the entries among the first `n` of a
      path item whose key is not in `skip` (the operations). */
  function NonOpRefsUpTo(item: seq<Entry>, n: nat, acc: seq<string>, skip: seq<string>): seq<string>
    requires n <= |item|
  {
    if n == 0 then acc
    else
      var prev := NonOpRefsUpTo(item, n - 1, acc, skip);
      if item[n - 1].key !in skip then SetAddAll(prev, RefsOf(item[n - 1].value)) else prev
  }

  /** `getPathLevelRefs(pathItem)`. */
  function PathLevelRefs(item: seq<Entry>): (r: Result<seq<string>>)
    ensures !TruthyOpt(Lookup(item, "parameters")) ==> r.Ok?
  {
    var acc :- PathParamRefs(item);
    Ok(NonOpRefsUpTo(item, |item|, acc, Operations))
  }

  /** `getPathLevelRefs`: the loop over the path-level parameters, then the
      loop over the non-operation keys. */
  method GetPathLevelRefs(item: seq<Entry>) returns (r: Result<seq<string>>)
    ensures r == PathLevelRefs(item)
  {
    r := CollectParamRefs(item);
    if r.Ok? {
      var refs := CollectNonOpRefs(item, r.value);
      r := Ok(refs);
    }
  }

  /** The first loop of getPathLevelRefs. */
  method CollectParamRefs(item: seq<Entry>) returns (r: Result<seq<string>>)
    ensures r == PathParamRefs(item)
  {
    var params := Lookup(item, "parameters");
    if !TruthyOpt(params) {
      return Ok([]);
    }
    match params.value
    case Arr(ps) =>
      var refs: seq<string> := [];
      var i := 0;
      while i < |ps|
        invariant 0 <= i <= |ps|
        invariant ParamsUpTo(ps, i) == Ok(refs)
      {
        var next := ParamRefs(refs, ps[i]);
        if next.Err? {
          ParamsErrStays(ps, i + 1, |ps|);
          return next;
        }
        refs := next.value;
        i := i + 1;
      }
      return Ok(refs);
    case Str(_) =>
      return Ok([]);
    case _ =>
      return Err("TypeError: pathItem.parameters is not iterable");
  }

  /** The second loop of getPathLevelRefs: `for (const key in pathItem)`. */
  method CollectNonOpRefs(item: seq<Entry>, acc: seq<string>) returns (refs: seq<string>)
    ensures refs == NonOpRefsUpTo(item, |item|, acc, Operations)
  {
    refs := acc;
    var k := 0;
    while k < |item|
      invariant 0 <= k <= |item|
      invariant refs == NonOpRefsUpTo(item, k, acc, Operations)
    {
      if item[k].key !in Operations {
        var sub := GetAllRefs(item[k].value);
        refs := AddEach(refs, sub);
      }
      k := k + 1;
    }
  }

  lemma {:induction false} ParamRefsWithin(ps: seq<Json>, n: nat, r: string)
    requires n <= |ps|
    requires ParamsUpTo(ps, n).Ok? && r in ParamsUpTo(ps, n).value
    ensures r in RefsOf(Arr(ps))
  {
    var acc := ParamsUpTo(ps, n - 1).value;
    if r !in acc {
      ParamRefsNew(acc, ps[n - 1], r);
      assert Child(Arr(ps), n - 1) == ps[n - 1];
      ChildRefs(Arr(ps), n - 1, r);
    } else {
      ParamRefsWithin(ps, n - 1, r);
    }
  }

  /** A ref one parameter adds is nested in that parameter. */
  lemma ParamRefsNew(acc: seq<string>, param: Json, r: string)
    requires ParamRefs(acc, param).Ok? && r in ParamRefs(acc, param).value && r !in acc
    ensures r in RefsOf(param)
  {
    var ref := Get(param, "$ref");
    if TruthyOpt(ref) {
      LookupFound(param.entries, "$ref");
      var m :| 0 <= m < |param.entries| && param.entries[m] == Entry("$ref", ref.value);
      DirectRef(param, m, r);
    } else {
      var schema := Get(param, "schema");
      if TruthyOpt(schema) && TruthyOpt(Get(schema.value, "$ref")) && r == Get(schema.value, "$ref").value.s {
        var sch := schema.value;
        LookupFound(param.entries, "schema");
        LookupFound(sch.entries, "$ref");
        var m1 :| 0 <= m1 < |param.entries| && param.entries[m1] == Entry("schema", sch);
        var m2 :| 0 <= m2 < |sch.entries| && sch.entries[m2] == Entry("$ref", Str(r));
        DirectRef(sch, m2, r);
        assert Child(param, m1) == sch;
        ChildRefs(param, m1, r);
      }
    }
  }

  lemma {:induction false} NonOpRefsMembers(item: seq<Entry>, n: nat, acc: seq<string>, skip: seq<string>, r: string)
    requires n <= |item|
    ensures r in NonOpRefsUpTo(item, n, acc, skip) <==>
            r in acc || exists i :: 0 <= i < n && item[i].key !in skip && r in RefsOf(item[i].value)
  {
    if n > 0 {
      NonOpRefsMembers(item, n - 1, acc, skip, r);
    }
  }

  /** Every ref getPathLevelRefs returns comes from a non-operation key, and
      every ref under a non-operation key is returned: the explicit
      `parameters` refs are a subset of the refs of the `parameters` entry. */
  lemma PathLevelRefsExactly(item: seq<Entry>, r: string)
    requires PathLevelRefs(item).Ok?
    ensures r in PathLevelRefs(item).value <==>
            exists i :: 0 <= i < |item| && item[i].key !in Operations && r in RefsOf(item[i].value)
  {
    var acc := PathParamRefs(item).value;
    assert PathLevelRefs(item).value == NonOpRefsUpTo(item, |item|, acc, Operations);
    NonOpRefsMembers(item, |item|, acc, Operations, r);
    if r in acc {
      var params := Lookup(item, "parameters").value;
      ParamRefsWithin(params.items, |params.items|, r);
      LookupFound(item, "parameters");
      var i :| 0 <= i < |item| && item[i] == Entry("parameters", params);
      assert item[i].key !in Operations && r in RefsOf(item[i].value);
    }
  }
}
