/** `getSqlMethodsWithOrderedFields(resourceData, dereferencedAPI, sqlVerb)`
    (`src/docgen/helpers.js`): the documentation entry of every StackQL method
    a resource exposes for one SQL verb, or, for `exec`, of every method no
    SQL verb refers to. */
module DocMethods {
  import opened Base
  import opened Text
  import opened JsonModel
  import opened JsonText
  import opened DocHelpers
  import opened DocOperation
  import opened DocProperties

  /** The SQL verbs whose methods `exec` leaves out, in the order they are
      read. */
  const SqlVerbs: seq<string> := ["select", "insert", "update", "delete", "replace"]

  /** The entry written for one method. */
  function MethodDoc(info: OpInfo, params: (seq<Entry>, seq<Entry>), properties: seq<Entry>): Json
  {
    Obj([Entry("opDescription", info.opDescription),
         Entry("respDescription", info.respDescription),
         Entry("properties", Obj(properties)),
         Entry("requiredParams", Obj(params.0)),
         Entry("optionalParams", Obj(params.1)),
         Entry("requestBody", Or(Some(info.requestBody), Obj([])))])
  }

  /** The entry of a method reached through `path` and `httpVerb`: the
      operation's information, its parameters, and its response properties
      formatted and written in field order. */
  function BuildMethod(api: Json, path: string, verb: string, mediaType: Option<Json>,
                       docKey: string, objectKey: Json): Result<Json>
  {
    var info :- OperationInfo(api, path, verb, mediaType, docKey, objectKey);
    var params :- OperationParams(api, path, verb);
    var all :- FormatProperties(info.respProps);
    Ok(MethodDoc(info, params, SortAndAdd([], all)))
  }

  /** Formatted properties have distinct names. */
  lemma FormatPropertiesUnique(respProps: Json)
    ensures FormatProperties(respProps).Ok? ==> UniqueKeys(FormatProperties(respProps).value)
  {
    FormatPropertiesNamed(respProps);
  }

  /** The same, as the helper computes it. */
  method BuildMethodDoc(api: Json, path: string, verb: string, mediaType: Option<Json>,
                        docKey: string, objectKey: Json) returns (r: Result<Json>)
    ensures r == BuildMethod(api, path, verb, mediaType, docKey, objectKey)
  {
    var info := OperationInfo(api, path, verb, mediaType, docKey, objectKey);
    if info.Err? {
      return Err(info.error);
    }
    var params := GetHttpOperationParams(api, path, verb);
    if params.Err? {
      return Err(params.error);
    }
    var all := FormatPropertiesLoop(info.value.respProps);
    if all.Err? {
      return Err(all.error);
    }
    var properties := SortAndAddProperties([], all.value);
    r := Ok(MethodDoc(info.value, params.value, properties));
  }

  // ---- the two loop shapes ----

  /** One turn of a loop that fills an object: a thrown error, nothing, or
      an entry to write. */
  function FillUpTo(turns: seq<Result<Option<Entry>>>, n: nat): Result<seq<Entry>>
    requires n <= |turns|
    decreases n
  {
    if n == 0 then Ok([])
    else
      var acc := FillUpTo(turns, n - 1);
      if acc.Err? then acc else FillNext(acc.value, turns[n - 1])
  }

  /** What one turn makes of the object so far. */
  function FillNext(acc: seq<Entry>, turn: Result<Option<Entry>>): Result<seq<Entry>>
  {
    match turn
    case Err(e) => Err(e)
    case Ok(None) => Ok(acc)
    case Ok(Some(e)) => Ok(Put(acc, e.key, e.value))
  }

  /** A turn that writes. */
  predicate Writes(turn: Result<Option<Entry>>, k: string)
  {
    turn.Ok? && turn.value.Some? && turn.value.value.key == k
  }

  /** When the loop completes, no turn threw, and the object holds exactly
      the keys some turn wrote. */
  lemma {:induction false} FillUpToKeys(turns: seq<Result<Option<Entry>>>, n: nat)
    requires n <= |turns|
    ensures FillUpTo(turns, n).Ok? ==>
              (forall i :: 0 <= i < n ==> turns[i].Ok?) &&
              forall k :: k in Keys(FillUpTo(turns, n).value) <==> exists i :: 0 <= i < n && Writes(turns[i], k)
    decreases n
  {
    if n > 0 {
      FillUpToKeys(turns, n - 1);
      var r := FillUpTo(turns, n);
      if r.Ok? && turns[n - 1].value.Some? {
        var e := turns[n - 1].value.value;
        PutKeySet(FillUpTo(turns, n - 1).value, e.key, e.value);
      }
    }
  }

  /** One turn of such a loop: a thrown error ends it with that error,
      otherwise the turn's entry is written. */
  lemma FillTurn(turns: seq<Result<Option<Entry>>>, k: nat, acc: seq<Entry>)
    requires k < |turns| && FillUpTo(turns, k) == Ok(acc)
    ensures turns[k].Err? ==> FillUpTo(turns, |turns|) == Err(turns[k].error)
    ensures turns[k].Ok? ==>
              FillUpTo(turns, k + 1) == Ok(if turns[k].value.Some? then Put(acc, turns[k].value.value.key, turns[k].value.value.value) else acc)
  {
    if turns[k].Err? {
      FillErrStays(turns, k + 1, |turns|);
    }
  }

  lemma {:induction false} FillErrStays(turns: seq<Result<Option<Entry>>>, n: nat, m: nat)
    requires n <= m <= |turns|
    requires FillUpTo(turns, n).Err?
    ensures FillUpTo(turns, m) == FillUpTo(turns, n)
    decreases m - n
  {
    if m > n {
      FillErrStays(turns, n, m - 1);
    }
  }

  /** Such a loop as written: each turn writes its entry, and the first
      turn that throws ends the loop with its error. */
  method FillTurns(turns: seq<Result<Option<Entry>>>) returns (r: Result<seq<Entry>>)
    ensures r == FillUpTo(turns, |turns|)
  {
    var methods: seq<Entry> := [];
    var k := 0;
    while k < |turns|
      invariant 0 <= k <= |turns|
      invariant FillUpTo(turns, k) == Ok(methods)
    {
      FillTurn(turns, k, methods);
      if turns[k].Err? {
        return Err(turns[k].error);
      }
      if turns[k].value.Some? {
        methods := Put(methods, turns[k].value.value.key, turns[k].value.value.value);
      }
      k := k + 1;
    }
    r := Ok(methods);
  }

  /** `set.add(name)` over names that may throw, starting from `start`. */
  function CollectUpTo(start: seq<string>, names: seq<Result<string>>, n: nat): Result<seq<string>>
    requires n <= |names|
    decreases n
  {
    if n == 0 then Ok(start)
    else
      var acc := CollectUpTo(start, names, n - 1);
      if acc.Err? then acc
      else if names[n - 1].Err? then Err(names[n - 1].error)
      else Ok(SetAdd(acc.value, names[n - 1].value))
  }

  lemma {:induction false} CollectUpToExact(start: seq<string>, names: seq<Result<string>>, n: nat)
    requires n <= |names|
    ensures CollectUpTo(start, names, n).Ok? ==>
              forall k :: k in CollectUpTo(start, names, n).value <==> k in start || Ok(k) in names[..n]
    decreases n
  {
    if n > 0 {
      CollectUpToExact(start, names, n - 1);
      assert names[..n] == names[..n - 1] + [names[n - 1]];
    }
  }

  lemma {:induction false} CollectErrStays(start: seq<string>, names: seq<Result<string>>, n: nat, m: nat)
    requires n <= m <= |names|
    requires CollectUpTo(start, names, n).Err?
    ensures CollectUpTo(start, names, m) == CollectUpTo(start, names, n)
    decreases m - n
  {
    if m > n {
      CollectErrStays(start, names, n, m - 1);
    }
  }

  // ---- exec: the names the five SQL verbs refer to ----

  /** `resourceData.sqlVerbs[verb]` as the exec branch walks it: a missing
      list, an empty one and one without a length add nothing; a non-empty
      string is walked character by character, and a character has no
      `$ref` to split. */
  function ExecVerbList(resourceData: Json, verb: string): (r: Result<seq<Json>>)
    ensures r.Ok? ==> !resourceData.Null?
  {
    var sqlVerbs :- Member(resourceData, "sqlVerbs");
    var list :- Read(sqlVerbs, verb);
    if !TruthyOpt(list) then Ok([])
    else match list.value
      case Arr(items) => Ok(items)
      case Str(_) => Err(TypeError + ": sqlVerbRef.split is not a function")
      case _ => Ok([])
  }

  /** The method name one entry of a verb list refers to. */
  function RefName(m: Json, resourceData: Json): (r: Result<string>)
    ensures r.Ok? ==> '/' !in r.value
  {
    var ref :- Member(m, "$ref");
    var o :- OpForSqlVerb(ref, resourceData);
    Ok(o.methodName)
  }

  /** The names one verb's list refers to, one per entry. */
  function VerbRefNames(resourceData: Json, verb: string): Result<seq<Result<string>>>
  {
    var list :- ExecVerbList(resourceData, verb);
    Ok(seq(|list|, i requires 0 <= i < |list| => RefName(list[i], resourceData)))
  }

  /** The lists of names of each verb. */
  function VerbLists(resourceData: Json, verbs: seq<string>): (lists: seq<Result<seq<Result<string>>>>)
    ensures |lists| == |verbs|
  {
    seq(|verbs|, j requires 0 <= j < |verbs| => VerbRefNames(resourceData, verbs[j]))
  }

  /** The names after the first `n` lists: a list that cannot be read, or
      a name that cannot be resolved, throws. */
  function NamesUpTo(lists: seq<Result<seq<Result<string>>>>, n: nat): Result<seq<string>>
    requires n <= |lists|
    decreases n
  {
    if n == 0 then Ok([])
    else
      var acc :- NamesUpTo(lists, n - 1);
      var names :- lists[n - 1];
      CollectUpTo(acc, names, |names|)
  }

  /** The names after the lists of the first `n` verbs. */
  function ExecNamesUpTo(resourceData: Json, verbs: seq<string>, n: nat): Result<seq<string>>
    requires n <= |verbs|
  {
    NamesUpTo(VerbLists(resourceData, verbs), n)
  }

  /** Some list holds the name `k`. */
  ghost predicate NameListed(lists: seq<Result<seq<Result<string>>>>, k: string)
  {
    exists j :: 0 <= j < |lists| && lists[j].Ok? && Ok(k) in lists[j].value
  }

  /** Some verb's list refers to the method `k`. */
  ghost predicate Referenced(resourceData: Json, verbs: seq<string>, k: string)
  {
    NameListed(VerbLists(resourceData, verbs), k)
  }

  /** The names collected from the first `n` lists are exactly those the
      lists hold. */
  lemma {:induction false} NamesExact(lists: seq<Result<seq<Result<string>>>>, n: nat)
    requires n <= |lists|
    ensures NamesUpTo(lists, n).Ok? ==> forall k :: k in NamesUpTo(lists, n).value <==> NameListed(lists[..n], k)
    decreases n
  {
    if n > 0 {
      NamesExact(lists, n - 1);
      var r := NamesUpTo(lists, n);
      if r.Ok? {
        var acc := NamesUpTo(lists, n - 1).value;
        var names := lists[n - 1].value;
        CollectUpToExact(acc, names, |names|);
        assert names[..|names|] == names;
        forall k
          ensures k in r.value <==> NameListed(lists[..n], k)
        {
          if NameListed(lists[..n], k) {
            var j :| 0 <= j < n && lists[..n][j].Ok? && Ok(k) in lists[..n][j].value;
            if j < n - 1 {
              assert lists[..n - 1][j] == lists[..n][j];
            }
          }
          if NameListed(lists[..n - 1], k) {
            var j :| 0 <= j < n - 1 && lists[..n - 1][j].Ok? && Ok(k) in lists[..n - 1][j].value;
            assert lists[..n][j] == lists[..n - 1][j];
          }
          if Ok(k) in names {
            assert lists[..n][n - 1] == lists[n - 1];
          }
        }
      }
    }
  }

  /** The names collected are exactly the methods some verb's list refers
      to. */
  lemma ExecNamesExact(resourceData: Json, verbs: seq<string>)
    ensures ExecNamesUpTo(resourceData, verbs, |verbs|).Ok? ==>
              forall k :: k in ExecNamesUpTo(resourceData, verbs, |verbs|).value <==> Referenced(resourceData, verbs, k)
  {
    var lists := VerbLists(resourceData, verbs);
    NamesExact(lists, |lists|);
    assert lists[..|lists|] == lists;
  }

  lemma {:induction false} NamesErrStays(lists: seq<Result<seq<Result<string>>>>, n: nat, m: nat)
    requires n <= m <= |lists|
    requires NamesUpTo(lists, n).Err?
    ensures NamesUpTo(lists, m) == NamesUpTo(lists, n)
    decreases m - n
  {
    if m > n {
      NamesErrStays(lists, n, m - 1);
    }
  }

  // ---- exec: the methods left over ----

  /** Where an exec method's operation points. */
  datatype Target = Target(path: string, verb: string)

  /** The path and verb of an exec method: from its `operation.$ref` when
      that is set (`~1` read back as `/`, then `~0` as `~`), and `None` when
      the reference does not have the form `#/paths/<p>/<v>`; otherwise its
      operation's own `path` and `httpVerb`. */
  function ExecTarget(methodData: Json): (r: Result<Option<Target>>)
  {
    var op :- Member(methodData, "operation");
    if op.None? || op.value.Null? then Err(TypeError + ": cannot destructure 'methodData.operation'")
    else
      var ref := Get(op.value, "$ref");
      if TruthyOpt(ref) then
        if !ref.value.Str? then Err(TypeError + ": refPath.match is not a function")
        else
          match PathRefMatch(ref.value.s)
          case None => Ok(None)
          case Some((p, v)) => Ok(Some(Target(ReplaceAll(ReplaceAll(p, "~1", "/"), "~0", "~"), v)))
      else Ok(Some(Target(PropKey(Get(op.value, "path")), PropKey(Get(op.value, "httpVerb")))))
  }

  /** A method whose `$ref` is not of the form `#/paths/<p>/<v>` is
      skipped, and one whose `$ref` is of that form is resolved to its verb,
      which holds no `/`. */
  lemma ExecTargetRef(methodData: Json)
    requires methodData.Obj?
    requires var op := Get(methodData, "operation");
             op.Some? && TruthyOpt(Get(op.value, "$ref")) && Get(op.value, "$ref").value.Str?
    ensures var s := Get(Get(methodData, "operation").value, "$ref").value.s;
            (PathRefMatch(s).None? ==> ExecTarget(methodData) == Ok(None)) &&
            (PathRefMatch(s).Some? ==>
               (ExecTarget(methodData).Ok? && ExecTarget(methodData).value.Some? &&
                ExecTarget(methodData).value.value.verb == PathRefMatch(s).value.1 &&
                '/' !in ExecTarget(methodData).value.value.verb))
  {
    var s := Get(Get(methodData, "operation").value, "$ref").value.s;
    MatchFromSound(s, 0);
  }

  /** A method whose `$ref` matches `#/paths/<p>/<v>` targets the decoded
      path `p` and the verb `v`. */
  lemma ExecTargetMatched(methodData: Json, op: Json, s: string, p: string, v: string)
    requires Get(methodData, "operation") == Some(op) && Get(op, "$ref") == Some(Str(s))
    requires PathRefMatch(s) == Some((p, v))
    ensures ExecTarget(methodData) == Ok(Some(Target(ReplaceAll(ReplaceAll(p, "~1", "/"), "~0", "~"), v)))
  {
  }

  /** The entry of an exec method: the media type defaults to `''` and the
      response key to `'200'`, and there is no object key. */
  function ExecMethod(api: Json, methodData: Json, t: Target): Result<Json>
  {
    var resp := Get(methodData, "response");
    if resp.None? || resp.value.Null? then Err(TypeError + ": cannot read properties of undefined (reading 'mediaType')")
    else
      BuildMethod(api, t.path, t.verb, Some(Or(Get(resp.value, "mediaType"), Str(""))),
                  JsString(Or(Get(resp.value, "openAPIDocKey"), Str("200"))), Str(""))
  }

  /** An entry of `methods` that gets documented: not referenced, and its
      operation resolves. */
  predicate Documented(e: Entry, names: seq<string>)
  {
    e.key !in names && ExecTarget(e.value).Ok? && ExecTarget(e.value).value.Some?
  }

  /** One turn of the loop over `Object.entries(resourceData.methods)`. */
  function ExecTurn(e: Entry, names: seq<string>, api: Json): (r: Result<Option<Entry>>)
    ensures r.Ok? ==> (r.value.Some? <==> Documented(e, names))
    ensures r.Ok? && r.value.Some? ==> r.value.value.key == e.key
  {
    if e.key in names then Ok(None)
    else
      var t :- ExecTarget(e.value);
      if t.None? then Ok(None)
      else
        var doc :- ExecMethod(api, e.value, t.value);
        Ok(Some(Entry(e.key, doc)))
  }

  function ExecTurns(es: seq<Entry>, names: seq<string>, api: Json): (turns: seq<Result<Option<Entry>>>)
    ensures |turns| == |es|
  {
    seq(|es|, i requires 0 <= i < |es| => ExecTurn(es[i], names, api))
  }

  /** The exec branch. */
  function ExecMethods(resourceData: Json, api: Json): Result<seq<Entry>>
  {
    var names :- ExecNamesUpTo(resourceData, SqlVerbs, |SqlVerbs|);
    ExecFill(resourceData, names, api)
  }

  /** The methods no verb refers to, given the names the verbs use. */
  function ExecFill(resourceData: Json, names: seq<string>, api: Json): Result<seq<Entry>>
  {
    var methods := Get(resourceData, "methods");
    if methods.None? || methods.value.Null? then Err(TypeError + ": cannot convert undefined or null to object")
    else
      var es := Entries(methods.value);
      FillUpTo(ExecTurns(es, names, api), |es|)
  }

  // ---- a SQL verb ----

  /** `resourceData.sqlVerbs[sqlVerb]`: `None` when it is missing or empty;
      a list that is not an array cannot be walked. */
  function VerbList(resourceData: Json, sqlVerb: string): Result<Option<seq<Json>>>
  {
    var sqlVerbs :- Member(resourceData, "sqlVerbs");
    var list :- Read(sqlVerbs, sqlVerb);
    if !TruthyOpt(list) then Ok(None)
    else if list.value.Arr? then (if list.value.items == [] then Ok(None) else Ok(Some(list.value.items)))
    else if list.value.Str? then Err(TypeError + ": sqlVerbRef.split is not a function")
    else Err(TypeError + ": resourceData.sqlVerbs[sqlVerb] is not iterable")
  }

  /** The entry of the method one element of the verb's list refers to. */
  function VerbMethod(m: Json, resourceData: Json, api: Json): Result<Json>
  {
    var ref :- Member(m, "$ref");
    var o :- OpForSqlVerb(ref, resourceData);
    BuildMethod(api, o.path, o.httpVerb, o.mediaType, PropKey(o.docKey), o.objectKey)
  }

  /** One turn of the loop over the verb's list: the entry is written under
      the method's name. */
  function VerbTurn(m: Json, resourceData: Json, api: Json): (r: Result<Option<Entry>>)
    ensures r.Ok? ==> r.value.Some? && RefName(m, resourceData) == Ok(r.value.value.key)
  {
    var name :- RefName(m, resourceData);
    var doc :- VerbMethod(m, resourceData, api);
    Ok(Some(Entry(name, doc)))
  }

  function VerbTurns(list: seq<Json>, resourceData: Json, api: Json): (turns: seq<Result<Option<Entry>>>)
    ensures |turns| == |list|
  {
    seq(|list|, i requires 0 <= i < |list| => VerbTurn(list[i], resourceData, api))
  }

  /** `getSqlMethodsWithOrderedFields(resourceData, dereferencedAPI, sqlVerb)`. */
  function SqlMethods(resourceData: Json, api: Json, sqlVerb: string): Result<seq<Entry>>
  {
    if sqlVerb == "exec" then ExecMethods(resourceData, api)
    else
      var list :- VerbList(resourceData, sqlVerb);
      match list
      case None => Ok([])
      case Some(items) => FillUpTo(VerbTurns(items, resourceData, api), |items|)
  }

  /** For `exec`, a method is documented exactly when no SQL verb's list
      refers to it and its operation resolves; a method whose `$ref` does not
      have the form `#/paths/<p>/<v>` is skipped. */
  lemma ExecExact(resourceData: Json, api: Json, k: string)
    requires SqlMethods(resourceData, api, "exec").Ok?
    ensures var es := Entries(Get(resourceData, "methods").value);
            k in Keys(SqlMethods(resourceData, api, "exec").value) <==>
              !Referenced(resourceData, SqlVerbs, k) &&
              exists i :: 0 <= i < |es| && es[i].key == k && ExecTarget(es[i].value).Ok? &&
                          ExecTarget(es[i].value).value.Some?
  {
    var names := ExecNamesUpTo(resourceData, SqlVerbs, |SqlVerbs|).value;
    ExecNamesExact(resourceData, SqlVerbs);
    var es := Entries(Get(resourceData, "methods").value);
    var turns := ExecTurns(es, names, api);
    FillUpToKeys(turns, |es|);
    assert forall i :: 0 <= i < |es| ==> turns[i] == ExecTurn(es[i], names, api);
  }

  /** For a SQL verb, the documented methods are exactly those its list
      refers to. */
  lemma VerbExact(resourceData: Json, api: Json, sqlVerb: string, k: string)
    requires sqlVerb != "exec"
    requires SqlMethods(resourceData, api, sqlVerb).Ok?
    requires VerbList(resourceData, sqlVerb).value.Some?
    ensures var list := VerbList(resourceData, sqlVerb).value.value;
            k in Keys(SqlMethods(resourceData, api, sqlVerb).value) <==>
              exists i :: 0 <= i < |list| && RefName(list[i], resourceData) == Ok(k)
  {
    var list := VerbList(resourceData, sqlVerb).value.value;
    var turns := VerbTurns(list, resourceData, api);
    FillUpToKeys(turns, |list|);
    assert forall i :: 0 <= i < |list| ==> turns[i] == VerbTurn(list[i], resourceData, api);
  }

  /** A verb whose list is missing or empty documents nothing. */
  lemma VerbEmpty(resourceData: Json, api: Json, sqlVerb: string)
    requires sqlVerb != "exec"
    requires resourceData.Obj? && TruthyOpt(Get(resourceData, "sqlVerbs"))
    requires var list := Get(Get(resourceData, "sqlVerbs").value, sqlVerb);
             list.None? || list.value == Arr([])
    ensures SqlMethods(resourceData, api, sqlVerb) == Ok([])
  {
  }

  /** The helper as written: loops over the verb lists and the methods. */
  method GetSqlMethodsWithOrderedFields(resourceData: Json, api: Json, sqlVerb: string) returns (r: Result<seq<Entry>>)
    ensures r == SqlMethods(resourceData, api, sqlVerb)
  {
    if sqlVerb == "exec" {
      r := GetExecMethods(resourceData, api);
      return;
    }
    var list := VerbList(resourceData, sqlVerb);
    if list.Err? {
      return Err(list.error);
    }
    if list.value.None? {
      return Ok([]);
    }
    r := FillTurns(VerbTurns(list.value.value, resourceData, api));
  }

  /** The names the five SQL verbs refer to, collected into a set. */
  method CollectSqlMethodNames(resourceData: Json) returns (r: Result<seq<string>>)
    ensures r == ExecNamesUpTo(resourceData, SqlVerbs, |SqlVerbs|)
  {
    ghost var lists := VerbLists(resourceData, SqlVerbs);
    var names: seq<string> := [];
    var v := 0;
    while v < |SqlVerbs|
      invariant 0 <= v <= |SqlVerbs|
      invariant NamesUpTo(lists, v) == Ok(names)
    {
      var list := ExecVerbList(resourceData, SqlVerbs[v]);
      assert lists[v] == VerbRefNames(resourceData, SqlVerbs[v]);
      if list.Err? {
        NamesErrStays(lists, v + 1, |lists|);
        return Err(list.error);
      }
      var items := list.value;
      ghost var refNames := lists[v].value;
      var start := names;
      var i := 0;
      while i < |items|
        invariant 0 <= i <= |items|
        invariant CollectUpTo(start, refNames, i) == Ok(names)
      {
        var name := RefName(items[i], resourceData);
        assert name == refNames[i];
        if name.Err? {
          CollectErrStays(start, refNames, i + 1, |items|);
          NamesErrStays(lists, v + 1, |lists|);
          return Err(name.error);
        }
        names := SetAdd(names, name.value);
        i := i + 1;
      }
      v := v + 1;
    }
    r := Ok(names);
  }

  /** The exec branch as written. */
  method GetExecMethods(resourceData: Json, api: Json) returns (r: Result<seq<Entry>>)
    ensures r == ExecMethods(resourceData, api)
  {
    var names :- CollectSqlMethodNames(resourceData);
    r := FillExec(resourceData, names, api);
  }

  /** The loop over the resource's methods. */
  method FillExec(resourceData: Json, names: seq<string>, api: Json) returns (r: Result<seq<Entry>>)
    ensures r == ExecFill(resourceData, names, api)
  {
    var m := Get(resourceData, "methods");
    if m.None? || m.value.Null? {
      return Err(TypeError + ": cannot convert undefined or null to object");
    }
    r := FillTurns(ExecTurns(Entries(m.value), names, api));
  }

}
