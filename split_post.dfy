/** The post-processing phases of split() in `src/providerdev/split.js`:
    renaming hyphenated path placeholders and the matching path parameters,
    adding `type: object` where `properties` has no type, and dropping empty
    component buckets. */
module SplitPost {
  import opened Base
  import opened Text
  import opened JsonModel

  // ---------------------------------------------------------------------
  // Path placeholder rename: /(?<=\{)([^}]+?)-([^}]+?)(?=\})/g -> '$1_$2'
  // ---------------------------------------------------------------------

  /** The first index at or after `i` holding `c`. */
  function FirstFrom(s: string, c: char, i: nat): (r: Option<nat>)
    ensures r.Some? ==> i <= r.value < |s| && s[r.value] == c
    ensures r.Some? ==> forall m :: i <= m < r.value ==> s[m] != c
    ensures r.None? ==> forall m :: i <= m < |s| ==> s[m] != c
    decreases |s| - i
  {
    if i >= |s| then None
    else if s[i] == c then Some(i)
    else FirstFrom(s, c, i + 1)
  }

  /** A match of the placeholder pattern starting at `p` (just after a `{`):
      the hyphen is the first one after at least one character, the match
      runs up to the first `}`, and at least one character must separate the
      hyphen from that brace. The result is (hyphen index, brace index). */
  function MatchAt(s: string, p: nat): (r: Option<(nat, nat)>)
    ensures r.Some? ==> p < r.value.0 && r.value.0 + 1 < r.value.1 < |s|
                        && s[r.value.0] == '-' && s[r.value.1] == '}'
  {
    if 0 < p <= |s| && s[p - 1] == '{' then
      match FirstFrom(s, '}', p)
      case None => None
      case Some(j) =>
        match FirstFrom(s, '-', p + 1)
        case None => None
        case Some(k) => if k + 2 <= j then Some((k, j)) else None
    else None
  }

  /** The rewrite of `s[p..]`: at a match the hyphen becomes `_` and the search
      resumes at the closing brace; elsewhere characters are copied. */
  function RenameFrom(s: string, p: nat): string
    requires p <= |s|
    decreases |s| - p
  {
    if p == |s| then []
    else match MatchAt(s, p)
      case Some((k, j)) => s[p..k] + "_" + s[k + 1..j] + RenameFrom(s, j)
      case None => [s[p]] + RenameFrom(s, p + 1)
  }

  /** `r` is `s[p..]` with some hyphens turned into underscores. */
  predicate Shaped(r: string, s: string, p: nat)
    requires p <= |s|
  {
    |r| == |s| - p && forall i :: 0 <= i < |r| ==> r[i] == s[p + i] || (s[p + i] == '-' && r[i] == '_')
  }

  /** The rewrite keeps the length and only turns hyphens into underscores. */
  lemma {:induction false} RenameFromShape(s: string, p: nat)
    requires p <= |s|
    ensures Shaped(RenameFrom(s, p), s, p)
    decreases |s| - p
  {
    if p < |s| {
      var m := MatchAt(s, p);
      if m.Some? {
        RenameFromShape(s, m.value.1);
        ShapeAtMatch(s, p);
      } else {
        RenameFromShape(s, p + 1);
        ShapeAtCopy(s, p);
      }
    }
  }

  lemma ShapeAtMatch(s: string, p: nat)
    requires p < |s| && MatchAt(s, p).Some?
    requires Shaped(RenameFrom(s, MatchAt(s, p).value.1), s, MatchAt(s, p).value.1)
    ensures Shaped(RenameFrom(s, p), s, p)
  {
    var k := MatchAt(s, p).value.0;
    var j := MatchAt(s, p).value.1;
    UnfoldMatch(s, p);
    ShapeMatch(s, p, k, j, RenameFrom(s, j));
  }

  /** One step of the rewrite at a match. */
  lemma UnfoldMatch(s: string, p: nat)
    requires p < |s| && MatchAt(s, p).Some?
    ensures var k := MatchAt(s, p).value.0;
            var j := MatchAt(s, p).value.1;
            RenameFrom(s, p) == s[p..k] + "_" + s[k + 1..j] + RenameFrom(s, j)
  {
  }

  lemma ShapeAtCopy(s: string, p: nat)
    requires p < |s| && MatchAt(s, p).None?
    requires Shaped(RenameFrom(s, p + 1), s, p + 1)
    ensures Shaped(RenameFrom(s, p), s, p)
  {
    ShapeCopy(s, p, RenameFrom(s, p + 1));
  }

  lemma ShapeMatch(s: string, p: nat, k: nat, j: nat, t: string)
    requires p < k < j <= |s| && s[k] == '-'
    requires Shaped(t, s, j)
    ensures Shaped(s[p..k] + "_" + s[k + 1..j] + t, s, p)
  {
    var r := s[p..k] + "_" + s[k + 1..j] + t;
    forall i | 0 <= i < |r| ensures r[i] == s[p + i] || (s[p + i] == '-' && r[i] == '_') {
      if i < k - p {
        assert r[i] == s[p + i];
      } else if i == k - p {
        assert r[i] == '_';
      } else if i < j - p {
        assert r[i] == s[p + i];
      } else {
        assert r[i] == t[i - (j - p)];
      }
    }
  }

  lemma ShapeCopy(s: string, p: nat, t: string)
    requires p < |s|
    requires Shaped(t, s, p + 1)
    ensures Shaped([s[p]] + t, s, p)
  {
  }

  /** `pathKey.replace(/(?<=\{)([^}]+?)-([^}]+?)(?=\})/g, '$1_$2')`. */
  function RenameKey(key: string): (r: string)
    ensures |r| == |key|
    ensures forall i :: 0 <= i < |r| ==> r[i] == key[i] || (key[i] == '-' && r[i] == '_')
  {
    RenameFromShape(key, 0);
    assert Shaped(RenameFrom(key, 0), key, 0);
    RenameFrom(key, 0)
  }

  /** A key without hyphens keeps its name. */
  lemma RenameKeyNoHyphen(key: string)
    requires '-' !in key
    ensures RenameKey(key) == key
  {
    var r := RenameKey(key);
    assert forall i :: 0 <= i < |r| ==> r[i] == key[i];
  }

  /** No match can start inside a stretch without hyphens. */
  lemma {:induction false} CopyNoHyphen(s: string, p: nat)
    requires p <= |s|
    requires forall m :: p <= m < |s| ==> s[m] != '-'
    ensures RenameFrom(s, p) == s[p..]
    decreases |s| - p
  {
    if p < |s| {
      CopyNoHyphen(s, p + 1);
    }
  }

  /** No match starts in a stretch that has no `{` and does not follow one. */
  lemma {:induction false} CopyNoBrace(s: string, p: nat, q: nat)
    requires p <= q <= |s|
    requires forall m :: p <= m < q ==> s[m] != '{'
    requires p == 0 || s[p - 1] != '{'
    ensures RenameFrom(s, p) == s[p..q] + RenameFrom(s, q)
    decreases q - p
  {
    if p < q {
      CopyOne(s, p);
      CopyNoBrace(s, p + 1, q);
      SliceCons(s, p, q);
    }
  }

  lemma SliceCons(s: string, p: nat, q: nat)
    requires p < q <= |s|
    ensures s[p..q] == [s[p]] + s[p + 1..q]
  {
  }

  /** A character not preceded by `{` is copied. */
  lemma CopyOne(s: string, p: nat)
    requires p < |s| && (p == 0 || s[p - 1] != '{')
    ensures RenameFrom(s, p) == [s[p]] + RenameFrom(s, p + 1)
  {
    assert MatchAt(s, p).None?;
  }

  /** A key with one placeholder `{b-c}` whose hyphen is the first one in it:
      only that hyphen becomes `_`, whatever hyphens follow in `c`. */
  lemma OnePlaceholder(a: string, b: string, c: string, d: string)
    requires '{' !in a && '-' !in a && '-' !in d
    requires |b| > 0 && |c| > 0 && '-' !in b && '}' !in b && '}' !in c
    ensures RenameKey(a + "{" + b + "-" + c + "}" + d) == a + "{" + b + "_" + c + "}" + d
  {
    var s := a + "{" + b + "-" + c + "}" + d;
    var p := |a| + 1;
    var k := p + |b|;
    var j := k + 1 + |c|;
    PlaceholderLayout(a, b, c, d);
    PlaceholderTail(s, j);
    var rj := RenameFrom(s, j);
    assert rj == "}" + d;
    PlaceholderMatch(s, p, k, j, b, c);
    var rp := RenameFrom(s, p);
    assert MatchAt(s, |a|).None?;
    var ra := RenameFrom(s, |a|);
    assert ra == "{" + rp;
    CopyNoBrace(s, 0, |a|);
    assert RenameFrom(s, 0) == a + ra;
    ConcatSix(a, b, c, d);
  }

  lemma ConcatSix(a: string, b: string, c: string, d: string)
    ensures a + ("{" + (b + "_" + c + ("}" + d))) == a + "{" + b + "_" + c + "}" + d
  {
  }

  /** Where the parts of a one-placeholder key sit. */
  lemma PlaceholderLayout(a: string, b: string, c: string, d: string)
    requires '{' !in a && '-' !in a && '-' !in d
    requires '-' !in b && '}' !in b && '}' !in c
    ensures var s := a + "{" + b + "-" + c + "}" + d;
            var p := |a| + 1;
            var k := p + |b|;
            var j := k + 1 + |c|;
            |s| == j + 1 + |d| && s[..|a|] == a && s[|a|] == '{' && s[p..k] == b && s[k] == '-'
            && s[k + 1..j] == c && s[j] == '}' && s[j..] == "}" + d
            && (forall m :: 0 <= m < |a| ==> s[m] != '{')
            && (forall m :: p <= m < k ==> s[m] != '-' && s[m] != '}')
            && (forall m :: k < m < j ==> s[m] != '}')
            && (forall m :: j < m < |s| ==> s[m] != '-')
  {
    var s := a + "{" + b + "-" + c + "}" + d;
    var p := |a| + 1;
    var k := p + |b|;
    var j := k + 1 + |c|;
    forall m | 0 <= m < |a| ensures s[m] != '{' { assert s[m] == a[m]; }
    forall m | p <= m < k ensures s[m] != '-' && s[m] != '}' { assert s[m] == b[m - p]; }
    forall m | k < m < j ensures s[m] != '}' { assert s[m] == c[m - k - 1]; }
    forall m | j < m < |s| ensures s[m] != '-' { assert s[m] == d[m - j - 1]; }
  }

  /** The match right after the brace of a one-placeholder key. */
  lemma PlaceholderMatch(s: string, p: nat, k: nat, j: nat, b: string, c: string)
    requires 0 < p < k && k + 1 < j < |s| && s[p - 1] == '{' && s[k] == '-' && s[j] == '}'
    requires forall m :: p <= m < k ==> s[m] != '-' && s[m] != '}'
    requires forall m :: k < m < j ==> s[m] != '}'
    requires s[p..k] == b && s[k + 1..j] == c
    ensures RenameFrom(s, p) == b + "_" + c + RenameFrom(s, j)
  {
    FirstBrace(s, p, j);
    FirstHyphen(s, p + 1, k);
    assert MatchAt(s, p) == Some((k, j));
  }

  /** The closing brace and a hyphen-free rest are copied. */
  lemma PlaceholderTail(s: string, j: nat)
    requires j < |s| && s[j] == '}'
    requires forall m :: j < m < |s| ==> s[m] != '-'
    ensures RenameFrom(s, j) == s[j..]
  {
    CopyNoHyphen(s, j);
  }

  lemma FirstBrace(s: string, p: nat, j: nat)
    requires p <= j < |s| && s[j] == '}'
    requires forall m :: p <= m < j ==> s[m] != '}'
    ensures FirstFrom(s, '}', p) == Some(j)
  {
  }

  lemma FirstHyphen(s: string, p: nat, k: nat)
    requires p <= k < |s| && s[k] == '-'
    requires forall m :: p <= m < k ==> s[m] != '-'
    ensures FirstFrom(s, '-', p) == Some(k)
  {
  }

  // ---------------------------------------------------------------------
  // Parameter rename inside the operations of a re-keyed path
  // ---------------------------------------------------------------------

  /** One `param` of `operation.parameters`: a path parameter whose string
      name contains `-` gets every `-` replaced; `name.includes` and
      `name.replace` throw on names that are not strings (an array passes
      `includes` unless it holds the string "-"). */
  function RenameParam(param: Json): (r: Result<Json>)
    ensures r.Ok? && Get(param, "in") == Some(Str("path")) && Get(param, "name").Some? && Get(param, "name").value.Str? ==>
              Get(r.value, "name") == Some(Str(MapChar(Get(param, "name").value.s, '-', '_')))
    ensures r.Ok? && Get(param, "in") != Some(Str("path")) ==> r.value == param
    ensures r.Err? ==> param.Null? || Get(param, "in") == Some(Str("path"))
  {
    if param.Null? then Err("TypeError: cannot read properties of null (reading 'in')")
    else if Get(param, "in") == Some(Str("path")) then
      match Get(param, "name")
      case Some(Str(n)) =>
        if '-' in n then Ok(Obj(Put(param.entries, "name", Str(MapChar(n, '-', '_')))))
        else
          assert MapChar(n, '-', '_') == n;
          Ok(param)
      case Some(Arr(items)) =>
        if Str("-") in items then Err("TypeError: param.name.replace is not a function") else Ok(param)
      case _ => Err("TypeError: param.name.includes is not a function")
    else Ok(param)
  }

  /** `for (const param of operation.parameters)`, stopping at the first
      throw. */
  function RenameParams(ps: seq<Json>): (r: Result<seq<Json>>)
    ensures r.Ok? ==> |r.value| == |ps| && forall i :: 0 <= i < |ps| ==> RenameParam(ps[i]) == Ok(r.value[i])
    decreases |ps|
  {
    if ps == [] then Ok([])
    else
      var p :- RenameParam(ps[0]);
      var rest :- RenameParams(ps[1..]);
      Ok([p] + rest)
  }

  /** One value of a re-keyed path item: reading `parameters` of `null`
      throws; truthy parameters are iterated (a string yields characters,
      which are not path parameters; anything else is not iterable). */
  function RenameOperation(op: Json): (r: Result<Json>)
    ensures r.Ok? && !TruthyOpt(Get(op, "parameters")) ==> r.value == op
  {
    if op.Null? then Err("TypeError: cannot read properties of null (reading 'parameters')")
    else
      var ps := Get(op, "parameters");
      if !TruthyOpt(ps) then Ok(op)
      else match ps.value
        case Arr(items) =>
          var items' :- RenameParams(items);
          Ok(Obj(Put(op.entries, "parameters", Arr(items'))))
        case Str(_) => Ok(op)
        case _ => Err("TypeError: operation.parameters is not iterable")
  }

  /** A path-level `parameters` array is itself a value of the path item, and
      an array has no `parameters` property: it is never renamed. */
  lemma PathLevelParamsUntouched(items: seq<Json>)
    ensures RenameOperation(Arr(items)) == Ok(Arr(items))
  {
  }

  /** `for (const verbKey in item)` over every key of the re-keyed path item. */
  function RenameItemEntries(es: seq<Entry>): (r: Result<seq<Entry>>)
    ensures r.Ok? ==> Keys(r.value) == Keys(es)
    decreases |es|
  {
    if es == [] then Ok([])
    else
      var v :- RenameOperation(es[0].value);
      var rest :- RenameItemEntries(es[1..]);
      Ok([Entry(es[0].key, v)] + rest)
  }

  function RenameItem(item: Json): Result<Json>
  {
    match item
    case Obj(es) =>
      var es' :- RenameItemEntries(es);
      Ok(Obj(es'))
    case _ => Ok(item)
  }

  /** One key of the snapshot: a renamed key takes over the item, the old
      key is deleted, and the item's operations have their path parameters
      renamed. */
  function RenameOne(paths: seq<Entry>, key: string): (r: Result<seq<Entry>>)
    ensures RenameKey(key) == key ==> r == Ok(paths)
  {
    var updated := RenameKey(key);
    if updated == key then Ok(paths)
    else match Lookup(paths, key)
      case None => Ok(paths)
      case Some(item) =>
        var moved := Remove(Put(paths, updated, item), key);
        var item' :- RenameItem(item);
        Ok(Put(moved, updated, item'))
  }

  /** A renamed key moves its item: afterwards the old key is gone, the new
      key holds the item with its path parameters renamed, and every other
      key is untouched. */
  lemma RenameOneMoves(paths: seq<Entry>, key: string)
    requires RenameOne(paths, key).Ok? && RenameKey(key) != key && Lookup(paths, key).Some?
    ensures RenameItem(Lookup(paths, key).value).Ok?
    ensures var r := RenameOne(paths, key).value;
            Lookup(r, key) == None && Lookup(r, RenameKey(key)) == Some(RenameItem(Lookup(paths, key).value).value)
            && forall x :: x != key && x != RenameKey(key) ==> Lookup(r, x) == Lookup(paths, x)
  {
  }

  /** A path parameter with a string name has no `-` in it. */
  predicate PathNameClean(param: Json)
  {
    Get(param, "in") == Some(Str("path")) && Get(param, "name").Some? && Get(param, "name").value.Str?
    ==> '-' !in Get(param, "name").value.s
  }

  /** Every path parameter of an operation's `parameters` array is clean. */
  predicate OperationClean(op: Json)
  {
    TruthyOpt(Get(op, "parameters")) && Get(op, "parameters").value.Arr?
    ==> forall param :: param in Get(op, "parameters").value.items ==> PathNameClean(param)
  }

  lemma RenameParamClean(param: Json)
    requires RenameParam(param).Ok?
    ensures PathNameClean(RenameParam(param).value)
  {
    var r := RenameParam(param).value;
    if Get(param, "in") == Some(Str("path")) && Get(param, "name").Some? && Get(param, "name").value.Str? {
      var n := Get(param, "name").value.s;
      assert Get(r, "name") == Some(Str(MapChar(n, '-', '_')));
      assert forall i :: 0 <= i < |n| ==> MapChar(n, '-', '_')[i] != '-';
    }
  }

  lemma RenameOperationClean(op: Json)
    requires RenameOperation(op).Ok?
    ensures OperationClean(RenameOperation(op).value)
  {
    var ps := Get(op, "parameters");
    if TruthyOpt(ps) && ps.value.Arr? {
      var items' := RenameParams(ps.value.items).value;
      forall param | param in items'
        ensures PathNameClean(param)
      {
        var i :| 0 <= i < |items'| && items'[i] == param;
        RenameParamClean(ps.value.items[i]);
      }
    }
  }

  /** After the rename, every path parameter with a string name in every
      operation of the moved item is free of `-`. */
  lemma RenameItemClean(item: Json)
    requires RenameItem(item).Ok? && item.Obj?
    ensures forall e :: e in Entries(RenameItem(item).value) ==> OperationClean(e.value)
  {
    RenameEntriesClean(item.entries);
  }

  lemma {:induction false} RenameEntriesClean(es: seq<Entry>)
    requires RenameItemEntries(es).Ok?
    ensures forall e :: e in RenameItemEntries(es).value ==> OperationClean(e.value)
    decreases |es|
  {
    if es != [] {
      RenameOperationClean(es[0].value);
      RenameEntriesClean(es[1..]);
    }
  }

  /** A turn of the rename loop: the state of `paths` before handling a
      key, and the outcome after. */
  type Turn = (seq<Entry>, string) -> Result<seq<Entry>>

  /** The loop over the first `n` keys of the snapshot `keys`, each handled
      by `step`: the first error ends it. */
  function StepUpTo(step: Turn, paths: seq<Entry>, keys: seq<string>, n: nat): Result<seq<Entry>>
    requires n <= |keys|
  {
    if n == 0 then Ok(paths)
    else match StepUpTo(step, paths, keys, n - 1)
      case Err(e) => Err(e)
      case Ok(p) => step(p, keys[n - 1])
  }

  /** The loop over the first `n` keys of the snapshot `keys`. */
  function RenameUpTo(paths: seq<Entry>, keys: seq<string>, n: nat): Result<seq<Entry>>
    requires n <= |keys|
  {
    StepUpTo(RenameOne, paths, keys, n)
  }

  /** The rename phase for one service: `Object.keys(paths)` is taken once,
      then each key is handled in order. */
  function RenamePaths(paths: seq<Entry>): Result<seq<Entry>>
  {
    RenameUpTo(paths, Keys(paths), |Keys(paths)|)
  }

  /** A turn that deletes no key but its own. */
  ghost predicate KeepsOthers(step: Turn)
  {
    forall p, key, x :: step(p, key).Ok? && x != key && Lookup(p, x).Some? ==> Lookup(step(p, key).value, x).Some?
  }

  /** Every key of the snapshot is still present when its turn comes, since
      only the key being handled is ever deleted. */
  lemma SnapshotKeysPresent(paths: seq<Entry>, n: nat, m: nat)
    requires UniqueKeys(paths)
    requires n <= m < |paths|
    requires RenameUpTo(paths, Keys(paths), n).Ok?
    ensures Lookup(RenameUpTo(paths, Keys(paths), n).value, Keys(paths)[m]).Some?
  {
    var ks := Keys(paths);
    LookupFound(paths, ks[m]);
    forall p, key, x | RenameOne(p, key).Ok? && x != key && Lookup(p, x).Some?
      ensures Lookup(RenameOne(p, key).value, x).Some?
    {
      RenameOneKeeps(p, key, x);
    }
    PresentUpTo(RenameOne, paths, ks, n, m, RenameUpTo(paths, ks, n).value);
  }

  /** With such a turn, a key the loop has not reached yet, present at the
      start, is still present in the state `q` after the first `n` turns. */
  lemma {:induction false} PresentUpTo(step: Turn, paths: seq<Entry>, ks: seq<string>, n: nat, m: nat, q: seq<Entry>)
    requires KeepsOthers(step)
    requires NoDup(ks) && n <= m < |ks|
    requires Lookup(paths, ks[m]).Some?
    requires StepUpTo(step, paths, ks, n) == Ok(q)
    ensures Lookup(q, ks[m]).Some?
    decreases n
  {
    if n > 0 {
      var p := StepUpTo(step, paths, ks, n - 1).value;
      PresentUpTo(step, paths, ks, n - 1, m, p);
      assert ks[n - 1] != ks[m];
    }
  }

  /** Handling one key leaves every other present key present. */
  lemma RenameOneKeeps(p: seq<Entry>, key: string, x: string)
    requires RenameOne(p, key).Ok? && x != key && Lookup(p, x).Some?
    ensures Lookup(RenameOne(p, key).value, x).Some?
  {
  }

  /** The loop of the rename phase. */
  method RenamePathParams(paths: seq<Entry>) returns (r: Result<seq<Entry>>)
    ensures r == RenamePaths(paths)
  {
    var keys := Keys(paths);
    r := Ok(paths);
    var i := 0;
    while i < |keys|
      invariant 0 <= i <= |keys|
      invariant r == RenameUpTo(paths, keys, i)
    {
      if r.Err? {
        StepErrStays(RenameOne, paths, keys, i, |keys|);
        return;
      }
      r := RenameOne(r.value, keys[i]);
      i := i + 1;
    }
  }

  /** Once a turn throws, the loop ends with that error. */
  lemma {:induction false} StepErrStays(step: Turn, paths: seq<Entry>, keys: seq<string>, i: nat, n: nat)
    requires i <= n <= |keys|
    requires StepUpTo(step, paths, keys, i).Err?
    ensures StepUpTo(step, paths, keys, n) == StepUpTo(step, paths, keys, i)
    decreases n
  {
    if n > i {
      StepErrStays(step, paths, keys, i, n - 1);
    }
  }

  /** The key and the parameter name disagree when a placeholder holds more
      than one hyphen: the key keeps the later hyphens while the parameter
      loses them all. */
  lemma PlaceholderParamDiverge(a: string, b: string, c: string, d: string)
    requires '{' !in a && '-' !in a && '-' !in d
    requires |b| > 0 && |c| > 0 && '-' !in b && '}' !in b && '}' !in c
    requires '-' in c
    ensures '-' in RenameKey(a + "{" + b + "-" + c + "}" + d)
    ensures '-' !in MapChar(b + "-" + c, '-', '_')
  {
    OnePlaceholder(a, b, c, d);
    var i :| 0 <= i < |c| && c[i] == '-';
    var r := a + "{" + b + "_" + c + "}" + d;
    assert r[|a| + 1 + |b| + 1 + i] == '-';
  }

  // ---------------------------------------------------------------------
  // addMissingObjectTypes
  // ---------------------------------------------------------------------

  /** An object with truthy `properties` and falsy `type`. */
  predicate NeedsType(es: seq<Entry>)
  {
    TruthyOpt(Lookup(es, "properties")) && !TruthyOpt(Lookup(es, "type"))
  }

  /** `addMissingObjectTypes(j)`: arrays are mapped, an object lacking its
      type gets `type: "object"`, and every object or array value is
      processed in turn; other values are returned as they are. The source
      sets the type before walking the entries; the new entry holds a string,
      which the walk leaves alone, so setting it afterwards is the same. */
  function WithObjectTypes(j: Json): Json
    decreases j
  {
    match j
    case Arr(items) => Arr(seq(|items|, i requires 0 <= i < |items| => WithObjectTypes(items[i])))
    case Obj(es) =>
      var walked := seq(|es|, i requires 0 <= i < |es| => Entry(es[i].key, WithObjectTypes(es[i].value)));
      Obj(if NeedsType(es) then Put(walked, "type", Str("object")) else walked)
    case _ => j
  }

  /** Every object at any depth with truthy `properties` has a truthy
      `type`. */
  ghost predicate Typed(j: Json)
    decreases j
  {
    match j
    case Arr(items) => forall i :: 0 <= i < |items| ==> Typed(items[i])
    case Obj(es) => !NeedsType(es) && forall i :: 0 <= i < |es| ==> Typed(es[i].value)
    case _ => true
  }

  lemma {:induction false} WalkedKeys(es: seq<Entry>, walked: seq<Entry>)
    requires |walked| == |es| && forall i :: 0 <= i < |es| ==> walked[i].key == es[i].key
    ensures forall k :: Lookup(walked, k).Some? <==> Lookup(es, k).Some?
    ensures forall k :: Lookup(es, k).Some? ==> exists i :: (0 <= i < |es| && es[i].key == k
                          && Lookup(es, k) == Some(es[i].value) && Lookup(walked, k) == Some(walked[i].value))
    decreases |es|
  {
    if es != [] {
      WalkedKeys(es[1..], walked[1..]);
      forall k | Lookup(es, k).Some?
        ensures exists i :: (0 <= i < |es| && es[i].key == k
                && Lookup(es, k) == Some(es[i].value) && Lookup(walked, k) == Some(walked[i].value))
      {
        if es[0].key == k {
          assert es[0].key == k && Lookup(es, k) == Some(es[0].value) && Lookup(walked, k) == Some(walked[0].value);
        } else {
          var i :| 0 <= i < |es[1..]| && es[1..][i].key == k
                   && Lookup(es[1..], k) == Some(es[1..][i].value) && Lookup(walked[1..], k) == Some(walked[1..][i].value);
          assert es[i + 1].key == k && Lookup(es, k) == Some(es[i + 1].value) && Lookup(walked, k) == Some(walked[i + 1].value);
        }
      }
    }
  }

  /** Walking keeps truthiness: objects stay objects, arrays stay arrays. */
  lemma WithObjectTypesTruthy(j: Json)
    ensures Truthy(WithObjectTypes(j)) == Truthy(j)
  {
  }

  /** After the walk, no object misses its type. */
  lemma {:induction false} WithObjectTypesTyped(j: Json)
    ensures Typed(WithObjectTypes(j))
    decreases j
  {
    match j
    case Arr(items) =>
      forall i | 0 <= i < |items| ensures Typed(WithObjectTypes(items[i])) {
        WithObjectTypesTyped(items[i]);
      }
    case Obj(es) =>
      var walked := seq(|es|, i requires 0 <= i < |es| => Entry(es[i].key, WithObjectTypes(es[i].value)));
      forall i | 0 <= i < |es|
        ensures Typed(walked[i].value) && Truthy(walked[i].value) == Truthy(es[i].value)
      {
        WithObjectTypesTyped(es[i].value);
        WithObjectTypesTruthy(es[i].value);
      }
      if NeedsType(es) {
        TypedPut(walked);
      } else {
        TypedKeep(es, walked);
      }
    case _ =>
  }

  /** Adding the type to an object whose values are typed types it. */
  lemma TypedPut(walked: seq<Entry>)
    requires forall i :: 0 <= i < |walked| ==> Typed(walked[i].value)
    ensures Typed(Obj(Put(walked, "type", Str("object"))))
  {
    PutTyped(walked);
    PutNoNeed(walked);
  }

  lemma PutNoNeed(walked: seq<Entry>)
    ensures !NeedsType(Put(walked, "type", Str("object")))
  {
  }

  lemma PutTyped(walked: seq<Entry>)
    requires forall i :: 0 <= i < |walked| ==> Typed(walked[i].value)
    ensures var put := Put(walked, "type", Str("object"));
            forall i :: 0 <= i < |put| ==> Typed(put[i].value)
  {
    var put := Put(walked, "type", Str("object"));
    PutEntries(walked, "type", Str("object"));
    forall i | 0 <= i < |put| ensures Typed(put[i].value) {
      var e := put[i];
      assert e in put;
      if e != Entry("type", Str("object")) {
        var m :| 0 <= m < |walked| && walked[m] == e;
      }
    }
  }

  /** An object that needs no type keeps needing none once its values are
      walked, since the walk keeps truthiness. */
  lemma TypedKeep(es: seq<Entry>, walked: seq<Entry>)
    requires |walked| == |es| && forall i :: 0 <= i < |es| ==> walked[i].key == es[i].key
    requires forall i :: 0 <= i < |es| ==> Truthy(walked[i].value) == Truthy(es[i].value)
    requires forall i :: 0 <= i < |walked| ==> Typed(walked[i].value)
    requires !NeedsType(es)
    ensures Typed(Obj(walked))
  {
    WalkedKeys(es, walked);
    if Lookup(es, "properties").Some? {
      var i :| 0 <= i < |es| && es[i].key == "properties"
               && Lookup(es, "properties") == Some(es[i].value) && Lookup(walked, "properties") == Some(walked[i].value);
    }
    if Lookup(es, "type").Some? {
      var i :| 0 <= i < |es| && es[i].key == "type"
               && Lookup(es, "type") == Some(es[i].value) && Lookup(walked, "type") == Some(walked[i].value);
    }
    assert !NeedsType(walked);
  }

  /** On a document where no object misses its type the walk changes
      nothing. */
  lemma {:induction false} WithObjectTypesTypedSame(j: Json)
    requires Typed(j)
    ensures WithObjectTypes(j) == j
    decreases j
  {
    match j
    case Arr(items) =>
      forall i | 0 <= i < |items| ensures WithObjectTypes(items[i]) == items[i] {
        WithObjectTypesTypedSame(items[i]);
      }
    case Obj(es) =>
      forall i | 0 <= i < |es| ensures WithObjectTypes(es[i].value) == es[i].value {
        WithObjectTypesTypedSame(es[i].value);
      }
    case _ =>
  }

  /** addMissingObjectTypes is idempotent. */
  lemma WithObjectTypesIdempotent(j: Json)
    ensures WithObjectTypes(WithObjectTypes(j)) == WithObjectTypes(j)
  {
    WithObjectTypesTyped(j);
    WithObjectTypesTypedSame(WithObjectTypes(j));
  }

  /** At each object, only the `type` key is added or changed; every other
      key keeps its value, walked. */
  lemma OtherKeysWalked(es: seq<Entry>, k: string)
    requires k != "type"
    ensures var r := WithObjectTypes(Obj(es)).entries;
            Lookup(r, k).Some? <==> Lookup(es, k).Some?
    ensures var r := WithObjectTypes(Obj(es)).entries;
            Lookup(es, k).Some? ==> Lookup(r, k) == Some(WithObjectTypes(Lookup(es, k).value))
  {
    var walked := seq(|es|, i requires 0 <= i < |es| => Entry(es[i].key, WithObjectTypes(es[i].value)));
    WalkedKeys(es, walked);
  }

  /** The walk in the source's form: a loop over the entries of each object,
      recursing into object and array values. */
  method AddMissingObjectTypes(j: Json) returns (r: Json)
    ensures r == WithObjectTypes(j)
    decreases j
  {
    match j {
      case Arr(items) =>
        var out: seq<Json> := [];
        var i := 0;
        while i < |items|
          invariant 0 <= i <= |items| && |out| == i
          invariant forall m :: 0 <= m < i ==> out[m] == WithObjectTypes(items[m])
        {
          var v := AddMissingObjectTypes(items[i]);
          out := out + [v];
          i := i + 1;
        }
        assert out == seq(|items|, i requires 0 <= i < |items| => WithObjectTypes(items[i]));
        r := Arr(out);
      case Obj(es) =>
        var walked: seq<Entry> := [];
        var i := 0;
        while i < |es|
          invariant 0 <= i <= |es| && |walked| == i
          invariant forall m :: 0 <= m < i ==> walked[m] == Entry(es[m].key, WithObjectTypes(es[m].value))
        {
          var v := es[i].value;
          if IsObjectLike(v) {
            v := AddMissingObjectTypes(v);
          }
          walked := walked + [Entry(es[i].key, v)];
          i := i + 1;
        }
        assert walked == seq(|es|, i requires 0 <= i < |es| => Entry(es[i].key, WithObjectTypes(es[i].value)));
        if NeedsType(es) {
          walked := Put(walked, "type", Str("object"));
        }
        r := Obj(walked);
      case _ =>
        r := j;
    }
  }

  // ---------------------------------------------------------------------
  // Pruning empty component buckets
  // ---------------------------------------------------------------------

  /** `Object.keys(v).length === 0`; `Object.keys(null)` throws. */
  function NoKeys(v: Json): Result<bool>
  {
    match v
    case Null => Err("TypeError: cannot convert undefined or null to object")
    case Obj(es) => Ok(es == [])
    case Arr(items) => Ok(items == [])
    case Str(s) => Ok(s == [])
    case _ => Ok(true)
  }

  /** The cleanup loop: every bucket without keys is deleted, the others stay
      in order. */
  function Prune(comps: seq<Entry>): (r: Result<seq<Entry>>)
    ensures r.Ok? ==> forall e :: e in r.value <==> e in comps && NoKeys(e.value) == Ok(false)
    ensures r.Err? <==> exists i :: 0 <= i < |comps| && comps[i].value.Null?
    decreases |comps|
  {
    if comps == [] then Ok([])
    else
      var empty :- NoKeys(comps[0].value);
      var rest :- Prune(comps[1..]);
      Ok(if empty then rest else [comps[0]] + rest)
  }

  /** Buckets that are objects never make the cleanup throw, and afterwards
      no empty bucket is left. */
  lemma PruneObjects(comps: seq<Entry>)
    requires forall i :: 0 <= i < |comps| ==> comps[i].value.Obj?
    ensures Prune(comps).Ok?
    ensures forall e :: e in Prune(comps).value ==> e.value.entries != []
  {
  }

  /** Cleaning up two runs of buckets one after the other is cleaning up
      both: the first throws first, and the kept buckets stay in order. */
  lemma {:induction false} PruneAppend(a: seq<Entry>, b: seq<Entry>)
    ensures Prune(a + b) ==
              match Prune(a)
              case Err(e) => Err(e)
              case Ok(x) => (match Prune(b) case Err(e) => Err(e) case Ok(y) => Ok(x + y))
    decreases |a|
  {
    if a == [] {
      assert a + b == b;
      if Prune(b).Ok? {
        assert [] + Prune(b).value == Prune(b).value;
      }
    } else {
      assert (a + b)[0] == a[0];
      assert (a + b)[1..] == a[1..] + b;
      PruneAppend(a[1..], b);
      var first := NoKeys(a[0].value);
      if first.Ok? && Prune(a[1..]).Ok? && Prune(b).Ok? {
        var x, y := Prune(a[1..]).value, Prune(b).value;
        assert Prune(a + b) == Ok(if first.value then x + y else [a[0]] + (x + y));
        assert Prune(a) == Ok(if first.value then x else [a[0]] + x);
        assert [a[0]] + (x + y) == ([a[0]] + x) + y;
      }
    }
  }

  /** One turn of the cleanup loop: the bucket at `i` throws the whole
      cleanup's error, or is kept exactly when it has keys. */
  lemma PruneStep(comps: seq<Entry>, i: nat, kept: seq<Entry>)
    requires i < |comps| && Prune(comps[..i]) == Ok(kept)
    ensures NoKeys(comps[i].value).Err? ==> Prune(comps) == Err(NoKeys(comps[i].value).error)
    ensures NoKeys(comps[i].value).Ok? ==>
              Prune(comps[..i + 1]) == Ok(if NoKeys(comps[i].value).value then kept else kept + [comps[i]])
  {
    var empty := NoKeys(comps[i].value);
    if empty.Err? {
      PruneAppend(comps[..i], comps[i..]);
      assert comps[..i] + comps[i..] == comps;
      assert comps[i..][0] == comps[i];
    } else {
      PruneAppend(comps[..i], [comps[i]]);
      assert [comps[i]][1..] == [];
      assert [comps[i]] + [] == [comps[i]];
      assert Prune([comps[i]]) == Ok(if empty.value then [] else [comps[i]]);
      assert kept + [] == kept;
      assert comps[..i + 1] == comps[..i] + [comps[i]];
    }
  }

  /** The cleanup loop in the source's form: `delete` on each empty bucket,
      in key order. */
  method PruneComponents(comps: seq<Entry>) returns (r: Result<seq<Entry>>)
    ensures r == Prune(comps)
  {
    var kept: seq<Entry> := [];
    var i := 0;
    while i < |comps|
      invariant 0 <= i <= |comps|
      invariant Prune(comps[..i]) == Ok(kept)
    {
      var empty := NoKeys(comps[i].value);
      PruneStep(comps, i, kept);
      if empty.Err? {
        return Err(empty.error);
      }
      if !empty.value {
        kept := kept + [comps[i]];
      }
      i := i + 1;
    }
    assert comps[..|comps|] == comps;
    r := Ok(kept);
  }
}
