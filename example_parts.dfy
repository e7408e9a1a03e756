/** What the example builders under src/docgen/resource/examples share:
    `for ... of` over a JSON value, `includes`, the object spread that names a
    chosen method, and the loop that picks the methods one SQL verb refers to
    (`getSelectMethods`, `getInsertMethods`, `getReplaceMethods` and
    `getDeleteMethods` are the same loop over a different verb). */
module ExampleParts {
  import opened Base
  import opened Text
  import opened JsonModel
  import opened JsonText
  import DocOperation

  const TypeError := DocOperation.TypeError

  /** `for (const x of j)`: an array gives its items, a string its
      characters; other values are not iterable. */
  function Iterate(j: Json): (r: Result<seq<Json>>)
    ensures r.Ok? <==> j.Arr? || j.Str?
    ensures j.Arr? ==> r == Ok(j.items)
    ensures j.Str? ==> r.Ok? && |r.value| == |j.s| && forall i :: 0 <= i < |j.s| ==> r.value[i] == Str([j.s[i]])
  {
    match j
    case Arr(items) => Ok(items)
    case Str(s) => Ok(seq(|s|, i requires 0 <= i < |s| => Str([s[i]])))
    case _ => Err(TypeError + ": value is not iterable")
  }

  /** `list && list.includes(name)` as a truth value: a falsy list includes
      nothing, an array compares its items, a string looks for a substring,
      and other values have no `includes`. */
  function Includes(list: Json, name: string): (r: Result<bool>)
    ensures list.Arr? ==> r == Ok(Str(name) in list.items)
    ensures !Truthy(list) ==> r == Ok(false)
  {
    if !Truthy(list) then Ok(false)
    else
      match list
      case Arr(items) => Ok(Str(name) in items)
      case Str(s) => Ok(exists i: nat :: i <= |s| && OccursAt(s, name, i))
      case _ => Err(TypeError + ": includes is not a function")
  }

  /** `{ name: methodName, ...method }`: the method's own keys are copied
      after `name`, so a `name` key of the method replaces it. */
  function Spread(name: string, m: Json): Json
  {
    Obj(DocOperation.Assign([Entry("name", Str(name))], Entries(m)))
  }

  /** `methodRef.$ref.split('/').pop()`. */
  function NameOfRef(methodRef: Json): (r: Result<string>)
    ensures r.Ok? ==> '/' !in r.value
  {
    if methodRef.Null? then Err(TypeError + ": cannot read properties of null (reading '$ref')")
    else
      var ref := Get(methodRef, "$ref");
      if ref.Some? && ref.value.Str? then Ok(LastSegment(ref.value.s, '/'))
      else Err(TypeError + ": $ref.split is not a function")
  }

  /** `operation.requestBody.content['application/json'].schema` when every
      step is truthy. */
  function BodySchema(operation: Json): Option<Json>
  {
    var schema := DocOperation.Chain(operation, ["requestBody", "content", "application/json", "schema"]);
    if TruthyOpt(schema) then schema else None
  }

  /** The parameters a `for ... of operation.parameters` loop walks, when
      `operation.parameters` is truthy. */
  function ParamsOf(operation: Json): Result<seq<Json>>
  {
    var parameters := Get(operation, "parameters");
    if TruthyOpt(parameters) then Iterate(parameters.value) else Ok([])
  }

  /** One turn of the loop over the refs: the spread method when the ref
      names a method the resource has (its value is truthy). */
  function PickTurn(methodRef: Json, methods: Json): (r: Result<Option<Json>>)
    ensures r.Err? <==> NameOfRef(methodRef).Err?
  {
    var name :- NameOfRef(methodRef);
    var m := Get(methods, name);
    if TruthyOpt(m) then Ok(Some(Spread(name, m.value))) else Ok(None)
  }

  function PickTurns(refs: seq<Json>, methods: Json): (ts: seq<Result<Option<Json>>>)
    ensures |ts| == |refs|
  {
    seq(|refs|, i requires 0 <= i < |refs| => PickTurn(refs[i], methods))
  }

  /** `getSelectMethods(resourceData)` and its three twins, for the verb
      given; the callers have checked that `resourceData.methods` is truthy. */
  function VerbMethods(resourceData: Json, verb: string): Result<seq<Json>>
    requires TruthyOpt(Get(resourceData, "methods"))
  {
    var sqlVerbs := Get(resourceData, "sqlVerbs");
    if !TruthyOpt(sqlVerbs) then Ok([])
    else
      var list := Get(sqlVerbs.value, verb);
      if !TruthyOpt(list) then Ok([])
      else
        var refs :- Iterate(list.value);
        Gather(PickTurns(refs, Get(resourceData, "methods").value), |refs|)
  }

  /** The refs the loop of `VerbMethods` walks. */
  function VerbRefs(resourceData: Json, verb: string): seq<Json>
  {
    var sqlVerbs := Get(resourceData, "sqlVerbs");
    if !TruthyOpt(sqlVerbs) then []
    else
      var list := Get(sqlVerbs.value, verb);
      if !TruthyOpt(list) || Iterate(list.value).Err? then [] else Iterate(list.value).value
  }

  /** The verb's loop is the generic loop over the pick turns of its refs. */
  lemma VerbMethodsGather(resourceData: Json, verb: string)
    requires TruthyOpt(Get(resourceData, "methods"))
    requires VerbMethods(resourceData, verb).Ok?
    ensures var refs := VerbRefs(resourceData, verb);
            VerbMethods(resourceData, verb) == Gather(PickTurns(refs, Get(resourceData, "methods").value), |refs|)
  {
  }

  /** The methods chosen for a verb are those of the refs that name an
      existing method, and nothing else. */
  lemma VerbMethodsMembers(resourceData: Json, verb: string, x: Json)
    requires TruthyOpt(Get(resourceData, "methods"))
    requires VerbMethods(resourceData, verb).Ok?
    ensures var refs := VerbRefs(resourceData, verb);
            var methods := Get(resourceData, "methods").value;
            x in VerbMethods(resourceData, verb).value <==>
              exists i :: 0 <= i < |refs| && PickTurn(refs[i], methods) == Ok(Some(x))
  {
    var refs := VerbRefs(resourceData, verb);
    var methods := Get(resourceData, "methods").value;
    var turns := PickTurns(refs, methods);
    VerbMethodsGather(resourceData, verb);
    GatherExact(turns, |refs|);
    assert forall i :: 0 <= i < |refs| ==> turns[i] == PickTurn(refs[i], methods);
  }

  /** The methods chosen for a verb come in the order of the verb's refs. */
  lemma VerbMethodsOrder(resourceData: Json, verb: string)
    requires TruthyOpt(Get(resourceData, "methods"))
    requires VerbMethods(resourceData, verb).Ok?
    ensures var refs := VerbRefs(resourceData, verb);
            VerbMethods(resourceData, verb).value == Given(PickTurns(refs, Get(resourceData, "methods").value), |refs|)
  {
    var refs := VerbRefs(resourceData, verb);
    VerbMethodsGather(resourceData, verb);
    GatherOrder(PickTurns(refs, Get(resourceData, "methods").value), |refs|);
  }

  /** None is chosen exactly when no ref names an existing method. */
  lemma VerbMethodsNone(resourceData: Json, verb: string)
    requires TruthyOpt(Get(resourceData, "methods"))
    requires VerbMethods(resourceData, verb).Ok?
    ensures var refs := VerbRefs(resourceData, verb);
            var methods := Get(resourceData, "methods").value;
            VerbMethods(resourceData, verb).value == [] <==>
              forall i :: 0 <= i < |refs| ==> PickTurn(refs[i], methods) == Ok(None)
  {
    var refs := VerbRefs(resourceData, verb);
    var methods := Get(resourceData, "methods").value;
    var turns := PickTurns(refs, methods);
    VerbMethodsGather(resourceData, verb);
    GatherFirst(turns, |refs|);
    assert forall i :: 0 <= i < |refs| ==> turns[i] == PickTurn(refs[i], methods);
  }

  /** The first method chosen is that of the first ref naming an existing
      method. */
  lemma VerbMethodsFirst(resourceData: Json, verb: string, k: nat)
    requires TruthyOpt(Get(resourceData, "methods"))
    requires VerbMethods(resourceData, verb).Ok?
    requires var refs := VerbRefs(resourceData, verb);
             var methods := Get(resourceData, "methods").value;
             k < |refs| && PickTurn(refs[k], methods).Ok? && PickTurn(refs[k], methods).value.Some? &&
             forall i :: 0 <= i < k ==> PickTurn(refs[i], methods) == Ok(None)
    ensures var refs := VerbRefs(resourceData, verb);
            VerbMethods(resourceData, verb).value != [] &&
            VerbMethods(resourceData, verb).value[0] == PickTurn(refs[k], Get(resourceData, "methods").value).value.value
  {
    var refs := VerbRefs(resourceData, verb);
    var methods := Get(resourceData, "methods").value;
    var turns := PickTurns(refs, methods);
    VerbMethodsGather(resourceData, verb);
    GatherFirst(turns, |refs|);
    assert turns[k] == PickTurn(refs[k], methods);
    assert forall i :: 0 <= i < k ==> turns[i] == PickTurn(refs[i], methods);
  }

  /** The loop as written. */
  method GetVerbMethods(resourceData: Json, verb: string) returns (r: Result<seq<Json>>)
    requires TruthyOpt(Get(resourceData, "methods"))
    ensures r == VerbMethods(resourceData, verb)
  {
    var sqlVerbs := Get(resourceData, "sqlVerbs");
    if !TruthyOpt(sqlVerbs) {
      return Ok([]);
    }
    var list := Get(sqlVerbs.value, verb);
    if !TruthyOpt(list) {
      return Ok([]);
    }
    var refs := Iterate(list.value);
    if refs.Err? {
      return Err(refs.error);
    }
    var methods := Get(resourceData, "methods").value;
    var turns := PickTurns(refs.value, methods);
    var chosen := [];
    var i := 0;
    while i < |refs.value|
      invariant 0 <= i <= |refs.value|
      invariant Gather(turns, i) == Ok(chosen)
    {
      GatherStep(turns, i, chosen);
      var name := NameOfRef(refs.value[i]);
      if name.Err? {
        GatherErrStays(turns, i + 1, |refs.value|);
        return Err(name.error);
      }
      var m := Get(methods, name.value);
      if TruthyOpt(m) {
        chosen := chosen + [Spread(name.value, m.value)];
      }
      i := i + 1;
    }
    return Ok(chosen);
  }

  // ---------------------------------------------------------------------
  // Loops that push some of their items

  /** The items pushed by the first `n` turns; the first failure ends the
      loop. */
  function Gather<T>(turns: seq<Result<Option<T>>>, n: nat): Result<seq<T>>
    requires n <= |turns|
  {
    if n == 0 then Ok([])
    else
      var prev :- Gather(turns, n - 1);
      if turns[n - 1].Err? then Err(turns[n - 1].error)
      else if turns[n - 1].value.None? then Ok(prev)
      else Ok(prev + [turns[n - 1].value.value])
  }

  /** The loop fails exactly when a turn does, and pushes only what the
      turns give, in order. */
  lemma {:induction false} GatherExact<T>(turns: seq<Result<Option<T>>>, n: nat)
    requires n <= |turns|
    ensures Gather(turns, n).Ok? <==> forall i :: 0 <= i < n ==> turns[i].Ok?
    ensures Gather(turns, n).Ok? ==>
              forall x :: x in Gather(turns, n).value <==>
                exists i :: 0 <= i < n && turns[i] == Ok(Some(x))
  {
    if n > 0 {
      GatherExact(turns, n - 1);
      var prev := Gather(turns, n - 1);
      if prev.Ok? && turns[n - 1].Ok? {
        var xs := Gather(turns, n).value;
        forall x ensures x in xs <==> exists i :: 0 <= i < n && turns[i] == Ok(Some(x)) {
          if x in xs && x !in prev.value {
            assert turns[n - 1] == Ok(Some(x));
          }
        }
      }
    }
  }

  /** Nothing is pushed exactly when no turn gives an item, and the first
      item pushed is the first one a turn gives. */
  lemma {:induction false} GatherFirst<T>(turns: seq<Result<Option<T>>>, n: nat)
    requires n <= |turns| && Gather(turns, n).Ok?
    ensures var xs := Gather(turns, n).value;
            (xs == [] <==> forall i :: 0 <= i < n ==> turns[i] == Ok(None)) &&
            (forall k :: 0 <= k < n && turns[k].Ok? && turns[k].value.Some? &&
                         (forall i :: 0 <= i < k ==> turns[i] == Ok(None)) ==>
               xs[0] == turns[k].value.value)
  {
    if n > 0 {
      GatherFirst(turns, n - 1);
    }
  }

  /** The turn an item of the result came from. */
  lemma GatherWitness<T>(turns: seq<Result<Option<T>>>, x: T) returns (i: nat)
    requires Gather(turns, |turns|).Ok? && x in Gather(turns, |turns|).value
    ensures i < |turns| && turns[i] == Ok(Some(x))
  {
    GatherExact(turns, |turns|);
    i :| 0 <= i < |turns| && turns[i] == Ok(Some(x));
  }

  /** What a turn gives is pushed. */
  lemma GatherHas<T>(turns: seq<Result<Option<T>>>, i: nat)
    requires Gather(turns, |turns|).Ok? && i < |turns| && turns[i].Ok? && turns[i].value.Some?
    ensures turns[i].value.value in Gather(turns, |turns|).value
  {
    GatherExact(turns, |turns|);
    assert turns[i] == Ok(Some(turns[i].value.value));
  }

  lemma {:induction false} GatherOkBefore<T>(turns: seq<Result<Option<T>>>, m: nat, n: nat)
    requires m <= n <= |turns| && Gather(turns, n).Ok?
    ensures Gather(turns, m).Ok?
    decreases n
  {
    if m < n {
      GatherOkBefore(turns, m, n - 1);
    }
  }

  /** The items the first `n` turns give, in turn order. */
  function Given<T>(turns: seq<Result<Option<T>>>, n: nat): seq<T>
    requires n <= |turns|
  {
    if n == 0 then []
    else Given(turns, n - 1) + (if turns[n - 1].Ok? && turns[n - 1].value.Some? then [turns[n - 1].value.value] else [])
  }

  /** When the loop does not throw, it pushes exactly what the turns give,
      in turn order. */
  lemma {:induction false} GatherOrder<T>(turns: seq<Result<Option<T>>>, n: nat)
    requires n <= |turns| && Gather(turns, n).Ok?
    ensures Gather(turns, n).value == Given(turns, n)
  {
    if n > 0 {
      GatherOkBefore(turns, n - 1, n);
      GatherOrder(turns, n - 1);
    }
  }

  /** One turn of such a loop. */
  lemma GatherStep<T>(turns: seq<Result<Option<T>>>, j: nat, acc: seq<T>)
    requires j < |turns| && Gather(turns, j) == Ok(acc)
    ensures turns[j].Err? ==> Gather(turns, j + 1) == Err(turns[j].error)
    ensures turns[j].Ok? ==>
              Gather(turns, j + 1) == Ok(if turns[j].value.Some? then acc + [turns[j].value.value] else acc)
  {
  }

  lemma {:induction false} GatherErrStays<T>(turns: seq<Result<Option<T>>>, n: nat, m: nat)
    requires n <= m <= |turns|
    requires Gather(turns, n).Err?
    ensures Gather(turns, m) == Gather(turns, n)
    decreases m - n
  {
    if n < m {
      GatherErrStays(turns, n, m - 1);
    }
  }

  /** A `forEach` loop that pushes what each turn gives and stops at the
      first turn that throws. */
  method CollectTurns<T>(turns: seq<Result<Option<T>>>) returns (r: Result<seq<T>>)
    ensures r == Gather(turns, |turns|)
  {
    var acc := [];
    var i := 0;
    while i < |turns|
      invariant 0 <= i <= |turns|
      invariant Gather(turns, i) == Ok(acc)
    {
      GatherStep(turns, i, acc);
      if turns[i].Err? {
        GatherErrStays(turns, i + 1, |turns|);
        return Err(turns[i].error);
      }
      if turns[i].value.Some? {
        acc := acc + [turns[i].value.value];
      }
      i := i + 1;
    }
    return Ok(acc);
  }

  /** A loop that appends the text each turn gives and stops at the first
      turn that throws. */
  function Concat(turns: seq<Result<string>>, n: nat): Result<string>
    requires n <= |turns|
  {
    if n == 0 then Ok("")
    else
      var prev :- Concat(turns, n - 1);
      var t :- turns[n - 1];
      Ok(prev + t)
  }

  /** Such a loop fails exactly when a turn does. */
  lemma {:induction false} ConcatOk(turns: seq<Result<string>>, n: nat)
    requires n <= |turns|
    ensures Concat(turns, n).Ok? <==> forall i :: 0 <= i < n ==> turns[i].Ok?
  {
    if n > 0 {
      ConcatOk(turns, n - 1);
    }
  }

  lemma ConcatStep(turns: seq<Result<string>>, j: nat, acc: string)
    requires j < |turns| && Concat(turns, j) == Ok(acc)
    ensures turns[j].Err? ==> Concat(turns, j + 1) == Err(turns[j].error)
    ensures turns[j].Ok? ==> Concat(turns, j + 1) == Ok(acc + turns[j].value)
  {
  }

  lemma {:induction false} ConcatErrStays(turns: seq<Result<string>>, n: nat, m: nat)
    requires n <= m <= |turns|
    requires Concat(turns, n).Err?
    ensures Concat(turns, m) == Concat(turns, n)
    decreases m - n
  {
    if n < m {
      ConcatErrStays(turns, n, m - 1);
    }
  }

  /** The loop as written. */
  method AppendTurns(turns: seq<Result<string>>) returns (r: Result<string>)
    ensures r == Concat(turns, |turns|)
  {
    var acc := "";
    var i := 0;
    while i < |turns|
      invariant 0 <= i <= |turns|
      invariant Concat(turns, i) == Ok(acc)
    {
      ConcatStep(turns, i, acc);
      if turns[i].Err? {
        ConcatErrStays(turns, i + 1, |turns|);
        return Err(turns[i].error);
      }
      acc := acc + turns[i].value;
      i := i + 1;
    }
    return Ok(acc);
  }

  // ---------------------------------------------------------------------
  // Lists written item by item

  /** The text a loop writes for the first `n` items when each item but the
      last is followed by `sep` and the last by `end`. */
  function Listed(items: seq<string>, sep: string, end: string, n: nat): string
    requires n <= |items|
  {
    if n == 0 then ""
    else Listed(items, sep, end, n - 1) + items[n - 1] + (if n < |items| then sep else end)
  }

  /** `Object.entries(x || {})`. */
  function EntriesOr(x: Option<Json>): seq<Entry>
  {
    Entries(Or(x, Obj([])))
  }

  /** One more item of such a loop. */
  lemma ListedStep(items: seq<string>, sep: string, end: string, n: nat)
    requires n < |items|
    ensures Listed(items, sep, end, n + 1) == Listed(items, sep, end, n) + items[n] + (if n + 1 < |items| then sep else end)
  {
  }

  /** Such a loop writes the items joined by `sep`, then `end`. */
  lemma ListedJoin(items: seq<string>, sep: string, end: string)
    requires |items| > 0
    ensures Listed(items, sep, end, |items|) == Join(items, sep) + end
  {
    ListedPrefix(items, sep, end, |items|);
    assert items[..|items|] == items;
  }

  lemma {:induction false} ListedPrefix(items: seq<string>, sep: string, end: string, n: nat)
    requires 0 < n <= |items|
    ensures Listed(items, sep, end, n) ==
              Join(items[..n], sep) + (if n < |items| then sep else end)
  {
    if n > 1 {
      ListedPrefix(items, sep, end, n - 1);
      JoinSnoc(items[..n - 1], items[n - 1], sep);
      assert items[..n - 1] + [items[n - 1]] == items[..n];
    } else {
      assert Listed(items, sep, end, 0) == "";
    }
  }

  /** Joining one more part. */
  lemma {:induction false} JoinSnoc(parts: seq<string>, x: string, sep: string)
    requires |parts| > 0
    ensures Join(parts + [x], sep) == Join(parts, sep) + sep + x
    decreases |parts|
  {
    if |parts| == 1 {
      assert (parts + [x])[1..] == [x];
    } else {
      JoinSnoc(parts[1..], x, sep);
      assert (parts + [x])[1..] == parts[1..] + [x];
    }
  }

  /** A join ends with its last part. */
  lemma {:induction false} JoinLast(parts: seq<string>, sep: string)
    requires |parts| > 0
    ensures EndsWith(Join(parts, sep), parts[|parts| - 1])
    decreases |parts|
  {
    if |parts| > 1 {
      JoinLast(parts[1..], sep);
      var j := Join(parts[1..], sep);
      var x := parts[|parts| - 1];
      assert parts[1..][|parts| - 2] == x;
      assert Join(parts, sep) == parts[0] + sep + j;
      assert (parts[0] + sep + j)[|parts[0] + sep + j| - |x|..] == j[|j| - |x|..];
    }
  }

  /** Joining two non-empty lists puts one separator between them. */
  lemma {:induction false} JoinAppend(a: seq<string>, b: seq<string>, sep: string)
    requires |a| > 0 && |b| > 0
    ensures Join(a + b, sep) == Join(a, sep) + sep + Join(b, sep)
    decreases |a|
  {
    if |a| == 1 {
      assert (a + b)[1..] == b;
    } else {
      JoinAppend(a[1..], b, sep);
      assert (a + b)[1..] == a[1..] + b;
    }
  }
}
