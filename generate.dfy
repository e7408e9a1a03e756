/** The provider-extension generator (src/providerdev/generate.js): the
    operation `$ref` encoding, the success-response picker, the service and
    resource naming rules, and the loop that builds `x-stackQL-resources`
    and its `sqlVerbs` lists from the manifest. */
module Generate {
  import opened Base
  import opened Text
  import opened JsonModel
  import opened JsonText
  import opened DocHelpers
  import DocOperation
  import DocMethods

  /** `path.replace(/\//g, '~1')`. */
  function EncodePath(p: string): string
  {
    ReplaceChar(p, '/', "~1")
  }

  /** `encodeRefPath`: `#/paths/<p with / as ~1>/<verb>`. */
  function EncodeRefPath(p: string, verb: string): (r: string)
    ensures StartsWith(r, "#/paths/")
    ensures EndsWith(r, "/" + verb)
  {
    var r := "#/paths/" + EncodePath(p) + "/" + verb;
    assert r[|r| - |"/" + verb|..] == "/" + verb;
    r
  }

  /** The encoded path has no `/`, so the only `/` after `#/paths/` is the
      one before the verb. */
  lemma EncodePathNoSlash(p: string)
    ensures '/' !in EncodePath(p)
  {
    ReplaceCharRemoves(p, '/', "~1", '/');
  }

  /** Encoding never makes a path shorter, so a non-empty path stays
      non-empty. */
  lemma {:induction false} EncodePathLength(p: string)
    ensures |EncodePath(p)| >= |p|
    decreases |p|
  {
    if p != [] {
      EncodePathLength(p[1..]);
    }
  }

  /** Turning every `~1` back into `/` recovers a path that held no `~1`. */
  lemma {:induction false} DecodeEncodedPath(p: string)
    requires !Occurs(p, "~1")
    ensures ReplaceAll(EncodePath(p), "~1", "/") == p
    decreases |p|
  {
    if p != [] {
      NotOccursTail(p, "~1");
      DecodeEncodedPath(p[1..]);
      var t := EncodePath(p[1..]);
      if p[0] == '/' {
        assert EncodePath(p) == "~1" + t;
        assert ("~1" + t)[..2] == "~1" && ("~1" + t)[2..] == t;
      } else {
        var e := [p[0]] + t;
        assert EncodePath(p) == e;
        if |e| >= 2 {
          assert p[1..] != [];
          assert !OccursAt(p, "~1", 0);
          assert p[..2] == [p[0], p[1]];
          assert t[0] == (if p[1] == '/' then '~' else p[1]);
          assert e[..2] != "~1";
        }
        assert e[1..] == t;
      }
    }
  }

  /** The only `/` in `<encoded path>/<verb>` is the separator. */
  lemma SlashOnlyAtSeparator(p: string, v: string)
    requires '/' !in v
    ensures var t := EncodePath(p) + "/" + v;
            forall j :: 0 <= j < |t| && t[j] == '/' ==> j == |EncodePath(p)|
  {
    var e := EncodePath(p);
    var t := e + "/" + v;
    EncodePathNoSlash(p);
  }

  /** Round trip with the sql-verb decoder of the documentation generator:
      `getHttpOperationForSqlVerb` reads back the path and verb that
      `encodeRefPath` wrote, when the path holds no `~1` and the verb no
      `/`. */
  lemma DecodeOpRefRoundTrip(p: string, v: string)
    requires !Occurs(p, "~1") && '/' !in v
    ensures DecodeOpRef(EncodeRefPath(p, v)) == (p, v)
  {
    var e := EncodePath(p);
    var t := e + "/" + v;
    var s := EncodeRefPath(p, v);
    assert s == "#/paths/" + t;
    SlashOnlyAtSeparator(p, v);
    assert !Occurs(t, "#/paths/") by {
      forall i: nat | OccursAt(t, "#/paths/", i)
        ensures false
      {
        PathsMarkerSlashes(t, i);
      }
    }
    SplitOnAbsent(t, "#/paths/");
    assert s[..8] == "#/paths/" && s[8..] == t;
    assert SplitOn(s, "#/paths/") == [[]] + [t];
    EncodePathNoSlash(p);
    SplitAt(e, v, '/');
    SplitNoSeparator(v, '/');
    assert Split(t, '/') == [e, v];
    DecodeEncodedPath(p);
  }

  lemma PathsMarkerSlashes(t: string, i: nat)
    requires OccursAt(t, "#/paths/", i)
    ensures t[i + 1] == '/' && t[i + 7] == '/'
  {
    assert t[i..i + 8][1] == '/' && t[i..i + 8][7] == '/';
  }

  /** Two different paths share an encoding when one spells a `/` as `~1`,
      which is why the round trip needs a path free of `~1`. */
  lemma EncodeRefPathCollision(v: string)
    ensures EncodeRefPath("a/b", v) == EncodeRefPath("a~1b", v)
  {
    assert EncodePath("a/b") == "a~1b" by {
      assert "a/b" == ['a'] + ['/'] + ['b'];
      ReplaceCharAppend(['a'] + ['/'], ['b'], '/', "~1");
      ReplaceCharAppend(['a'], ['/'], '/', "~1");
    }
    assert EncodePath("a~1b") == "a~1b" by {
      ReplaceCharAbsent("a~1b", '/', "~1");
    }
  }

  /** The last `/` of `<encoded path>/<verb>` is the separator. */
  lemma LastSlashIsSeparator(p: string, v: string)
    requires '/' !in v
    ensures LastIndexOf(EncodePath(p) + "/" + v, '/') == Some(|EncodePath(p)|)
  {
    var e := EncodePath(p);
    var t := e + "/" + v;
    SlashOnlyAtSeparator(p, v);
    assert t[|e|] == '/';
  }

  /** Encoding brings in no line terminator. */
  lemma EncodePathNoLineTerminator(p: string)
    requires forall j :: 0 <= j < |p| ==> !IsLineTerminator(p[j])
    ensures forall j :: 0 <= j < |EncodePath(p)| ==> !IsLineTerminator(EncodePath(p)[j])
  {
    ReplaceCharRemoves(p, '/', "~1", '\n');
    ReplaceCharRemoves(p, '/', "~1", '\r');
    ReplaceCharRemoves(p, '/', "~1", 0x2028 as char);
    ReplaceCharRemoves(p, '/', "~1", 0x2029 as char);
  }

  /** The exec-method matcher of the documentation generator splits an
      encoded reference at the separator before the verb. */
  lemma PathRefMatchEncoded(p: string, v: string)
    requires p != [] && v != [] && '/' !in v
    requires forall j :: 0 <= j < |p| ==> !IsLineTerminator(p[j])
    ensures PathRefMatch(EncodeRefPath(p, v)) == Some((EncodePath(p), v))
  {
    var e := EncodePath(p);
    var t := e + "/" + v;
    var s := EncodeRefPath(p, v);
    assert s[0..8] == "#/paths/" && s[8..] == t;
    EncodePathLength(p);
    LastSlashIsSeparator(p, v);
    EncodePathNoLineTerminator(p);
    assert !exists k :: 0 <= k < |e| && IsLineTerminator(t[k]) by {
      forall k | 0 <= k < |e|
        ensures !IsLineTerminator(t[k])
      {
        assert t[k] == e[k];
      }
    }
    assert t[..|e|] == e && t[|e| + 1..] == v;
    assert TailGroups(t) == Some((e, v));
  }

  /** The method entry `generate` writes: the operation `$ref` and the
      success-response information. */
  function MethodJson(pathRef: string, info: ResponseInfo): Json
  {
    Obj([Entry("operation", Obj([Entry("$ref", Str(pathRef))])),
         Entry("response", Obj([Entry("mediaType", Str(info.mediaType)),
                                Entry("openAPIDocKey", Str(info.docKey))]))])
  }

  /** A method written by the generator is documented as an exec method of
      the very path and verb it was generated from. */
  lemma ExecTargetOfGenerated(p: string, v: string, info: ResponseInfo)
    requires p != [] && v != [] && '/' !in v
    requires !Occurs(p, "~1") && !Occurs(p, "~0")
    requires forall j :: 0 <= j < |p| ==> !IsLineTerminator(p[j])
    ensures DocMethods.ExecTarget(MethodJson(EncodeRefPath(p, v), info)) == Ok(Some(DocMethods.Target(p, v)))
  {
    var ref := EncodeRefPath(p, v);
    MethodJsonRef(ref, info);
    PathRefMatchEncoded(p, v);
    DocMethods.ExecTargetMatched(MethodJson(ref, info), Obj([Entry("$ref", Str(ref))]), ref, EncodePath(p), v);
    DecodeEncodedPath(p);
    ReplaceAllAbsent(p, "~0", "~");
  }

  /** The operation of a generated method entry holds just its `$ref`. */
  lemma MethodJsonRef(ref: string, info: ResponseInfo)
    ensures Get(MethodJson(ref, info), "operation") == Some(Obj([Entry("$ref", Str(ref))]))
    ensures Get(Obj([Entry("$ref", Str(ref))]), "$ref") == Some(Str(ref))
  {
  }

  /** A method written by the generator and listed under a sql verb is
      resolved by the documentation generator to the path and verb it was
      generated from, with its response information. */
  lemma OpForSqlVerbOfGenerated(resource: string, m: string, p: string, v: string, info: ResponseInfo)
    requires '/' !in m && !Occurs(p, "~1") && '/' !in v
    ensures var resourceData := Obj([Entry("methods", Obj([Entry(m, MethodJson(EncodeRefPath(p, v), info))]))]);
            var r := DocOperation.OpForSqlVerb(Some(Str(MethodRef(resource, m))), resourceData);
            r.Ok? && r.value.path == p && r.value.httpVerb == v &&
            r.value.mediaType == Some(Str(info.mediaType)) && r.value.docKey == Some(Str(info.docKey))
  {
    var methodObj := MethodJson(EncodeRefPath(p, v), info);
    var resourceData := Obj([Entry("methods", Obj([Entry(m, methodObj)]))]);
    MethodRefLast(resource, m);
    DecodeOpRefRoundTrip(p, v);
    assert Get(resourceData, "methods") == Some(Obj([Entry(m, methodObj)]));
    assert Get(Obj([Entry(m, methodObj)]), m) == Some(methodObj);
    assert Get(methodObj, "operation") == Some(Obj([Entry("$ref", Str(EncodeRefPath(p, v)))]));
    var resp := Obj([Entry("mediaType", Str(info.mediaType)), Entry("openAPIDocKey", Str(info.docKey))]);
    assert methodObj.entries[1..] == [Entry("response", resp)];
    assert Lookup(methodObj.entries[1..], "response") == Some(resp);
    assert "operation"[0] != "response"[0];
    assert Get(methodObj, "response") == Some(resp);
    assert resp.entries[1..] == [Entry("openAPIDocKey", Str(info.docKey))];
    assert Lookup(resp.entries[1..], "openAPIDocKey") == Some(Str(info.docKey));
    assert "mediaType"[0] != "openAPIDocKey"[0];
    assert Get(resp, "openAPIDocKey") == Some(Str(info.docKey));
  }

  // ---------------------------------------------------------------------
  // getSuccessResponseInfo

  /** The media type and document key of an operation's success response. */
  datatype ResponseInfo = ResponseInfo(mediaType: string, docKey: string)

  /** The keys of `xs` that start with `2`, in order. */
  function TwoXxCodes(ks: seq<string>): (r: seq<string>)
    ensures forall k :: k in r <==> k in ks && StartsWith(k, "2")
    decreases |ks|
  {
    if ks == [] then []
    else (if StartsWith(ks[0], "2") then [ks[0]] else []) + TwoXxCodes(ks[1..])
  }

  /** `operation.responses || {}`. */
  function Responses(operation: Json): Json
  {
    Or(Get(operation, "responses"), Obj([]))
  }

  /** `responses[code]?.content || {}`. */
  function ContentOf(responses: Json, code: string): Json
  {
    var resp := Get(responses, code);
    if resp.None? then Obj([]) else Or(Get(resp.value, "content"), Obj([]))
  }

  /** `getSuccessResponseInfo`: the first of the sorted 2xx response codes,
      and the first media type of its content. */
  function SuccessResponseInfo(operation: Json): (r: ResponseInfo)
  {
    var responses := Responses(operation);
    var codes := SortStrings(TwoXxCodes(Keys(Entries(responses))));
    if codes == [] then ResponseInfo("", "")
    else
      var mediaTypes := Keys(Entries(ContentOf(responses, codes[0])));
      ResponseInfo(if |mediaTypes| > 0 then mediaTypes[0] else "", codes[0])
  }

  /** The first of the sorted strings is one of them and is below all of
      them. */
  lemma SortedFirstLeast(xs: seq<string>)
    requires xs != []
    ensures SortStrings(xs) != [] && SortStrings(xs)[0] in xs
    ensures forall k :: k in xs ==> LexLe(SortStrings(xs)[0], k)
  {
    var codes := SortStrings(xs);
    assert |codes| == |multiset(xs)| > 0;
    assert codes[0] in multiset(xs);
    forall k | k in xs
      ensures LexLe(codes[0], k)
    {
      assert k in multiset(codes);
      var j :| 0 <= j < |codes| && codes[j] == k;
      if j == 0 {
        LexLeTotal(k, k);
      }
    }
  }

  /** The document key is the smallest response code starting with `2`,
      and the media type the first key of its content; both are empty when
      there is no 2xx code. */
  lemma SuccessResponseLowest(operation: Json)
    ensures var r := SuccessResponseInfo(operation);
            var ks := Keys(Entries(Responses(operation)));
            (r.docKey == "" <==> forall k :: k in ks ==> !StartsWith(k, "2")) &&
            (r.docKey != "" ==> r.docKey in ks && StartsWith(r.docKey, "2") &&
                                 (forall k :: k in ks && StartsWith(k, "2") ==> LexLe(r.docKey, k))) &&
            (r.docKey == "" ==> r.mediaType == "") &&
            (r.docKey != "" ==> var mts := Keys(Entries(ContentOf(Responses(operation), r.docKey)));
                                 r.mediaType == if mts == [] then "" else mts[0])
  {
    var ks := Keys(Entries(Responses(operation)));
    var two := TwoXxCodes(ks);
    if two != [] {
      SortedFirstLeast(two);
    } else {
      assert SortStrings(two) == [];
      forall k | k in ks && StartsWith(k, "2")
        ensures false
      {
      }
    }
  }

  // ---------------------------------------------------------------------
  // Names

  /** `snakeCase`: every `-` becomes `_` and nothing else changes. */
  function SnakeCase(name: string): (r: string)
    ensures |r| == |name| && '-' !in r
    ensures forall i :: 0 <= i < |name| && name[i] != '-' ==> r[i] == name[i]
  {
    MapChar(name, '-', '_')
  }

  /** A character `\w` matches. */
  predicate IsWordChar(c: char)
  {
    IsUpper(c) || IsLower(c) || IsDigit(c) || c == '_'
  }

  /** `s.replace(/\b\w/g, c => c.toUpperCase())`: a word character at the
      start or after a non-word character is upper-cased. */
  function CapitalizeWords(s: string): string
  {
    seq(|s|, i requires 0 <= i < |s| =>
      if IsWordChar(s[i]) && (i == 0 || !IsWordChar(s[i - 1])) then UpperChar(s[i]) else s[i])
  }

  /** The resource title: `_` becomes a space and each word starts with an
      upper-case letter. */
  function Title(name: string): string
  {
    CapitalizeWords(MapChar(name, '_', ' '))
  }

  /** The title has no `_`, no word of it starts with a lower-case letter,
      and it differs from the name only in letter case and in `_` turned
      into spaces. */
  lemma TitleShape(name: string)
    ensures var r := Title(name);
            |r| == |name| && '_' !in r &&
            (forall i :: 0 <= i < |r| && IsLower(r[i]) ==> i > 0 && IsWordChar(r[i - 1])) &&
            (forall i :: 0 <= i < |r| ==>
               if name[i] == '_' then r[i] == ' ' else LowerChar(r[i]) == LowerChar(name[i]))
  {
    var r := Title(name);
    var s := MapChar(name, '_', ' ');
    forall i | 0 <= i < |r|
      ensures r[i] != '_'
    {
      assert s[i] != '_';
    }
  }

  /** The files `generate` reads: `.yaml`, `.yml` and `.json`. */
  predicate IsSpecFile(filename: string)
  {
    EndsWith(filename, ".yaml") || EndsWith(filename, ".yml") || EndsWith(filename, ".json")
  }

  /** The service name of a spec file: its name without the extension, with
      every `-` turned into `_`. */
  function ServiceName(filename: string): (r: string)
    requires IsSpecFile(filename)
    ensures |r| <= |filename| && '-' !in r
  {
    var ext := if EndsWith(filename, ".yaml") then 5 else if EndsWith(filename, ".yml") then 4 else 5;
    // `path.extname` of a name that is only the extension is empty.
    SnakeCase(if |filename| == ext then filename else filename[..|filename| - ext])
  }

  // ---------------------------------------------------------------------
  // Building `x-stackQL-resources`

  /** The reference a sql verb list holds for method `m` of resource `r`. */
  function MethodRef(resource: string, m: string): string
  {
    "#/components/x-stackQL-resources/" + resource + "/methods/" + m
  }

  lemma MethodRefLast(resource: string, m: string)
    requires '/' !in m
    ensures LastSegment(MethodRef(resource, m), '/') == m
  {
    var pre := "#/components/x-stackQL-resources/" + resource + "/methods";
    assert MethodRef(resource, m) == pre + "/" + m;
    LastOfSplitAfter(pre, m, '/');
  }

  /** After the last separator comes a separator-free tail. */
  lemma {:induction false} LastOfSplitAfter(a: string, b: string, c: char)
    requires c !in b
    ensures LastSegment(a + [c] + b, c) == b
    decreases |a|
  {
    if a == [] {
      assert [] + [c] + b == [c] + b;
      assert ([c] + b)[1..] == b;
      SplitNoSeparator(b, c);
    } else {
      assert (a + [c] + b)[1..] == a[1..] + [c] + b;
      LastOfSplitAfter(a[1..], b, c);
      if a[0] != c {
        SplitTailLength(a[1..], b, c);
      }
    }
  }

  /** A text holding a separator splits into at least two parts. */
  lemma {:induction false} SplitTailLength(a: string, b: string, c: char)
    ensures |Split(a + [c] + b, c)| >= 2
    decreases |a|
  {
    if a == [] {
      assert [] + [c] + b == [c] + b;
      assert ([c] + b)[1..] == b;
    } else {
      assert (a + [c] + b)[1..] == a[1..] + [c] + b;
      SplitTailLength(a[1..], b, c);
    }
  }

  /** A resource of `x-stackQL-resources` while it is being built; its
      `sqlVerbs` lists hold the `$ref` texts. */
  datatype Resource = Resource(id: string, name: string, title: string,
                               methods: seq<Entry>, sqlVerbs: map<string, seq<string>>)

  /** The `resources` object: the resources by key, and the keys in the
      order they were first added. */
  datatype Resources = Resources(byName: map<string, Resource>, order: seq<string>)

  /** What one run of `generate` fixes for a spec file. */
  datatype Ctx = Ctx(providerId: string, serviceName: string, filename: string, manifest: Json)

  /** A resource seen for the first time: its id, name and title, no
      methods, and the five empty sql verb lists. */
  function NewResource(c: Ctx, name: string): (r: Resource)
    ensures r.methods == [] && forall v :: v in r.sqlVerbs <==> v in DocMethods.SqlVerbs
    ensures forall v :: v in r.sqlVerbs ==> r.sqlVerbs[v] == []
  {
    Resource(c.providerId + "." + c.serviceName + "." + name, name, Title(name), [],
             map v | v in DocMethods.SqlVerbs :: [])
  }

  /** `resources[key].methods[m] = methodEntry`, then the reference to the
      method goes on the list of its sql verb; `exec` and unknown verbs add
      nothing. */
  function RecordIn(res: Resource, key: string, m: string, methodEntry: Json, sqlVerb: Option<Json>): Resource
  {
    var withMethod := res.(methods := Put(res.methods, m, methodEntry));
    var v := PropKey(sqlVerb);
    if TruthyOpt(sqlVerb) && sqlVerb.value == Str("exec") then withMethod
    else if TruthyOpt(sqlVerb) && v in withMethod.sqlVerbs then
      withMethod.(sqlVerbs := withMethod.sqlVerbs[v := withMethod.sqlVerbs[v] + [MethodRef(key, m)]])
    else withMethod
  }

  function Record(rs: Resources, key: string, m: string, methodEntry: Json, sqlVerb: Option<Json>): Resources
    requires key in rs.byName
  {
    rs.(byName := rs.byName[key := RecordIn(rs.byName[key], key, m, methodEntry, sqlVerb)])
  }

  /** `resources[key]` created when it is missing. */
  function WithResource(c: Ctx, rs: Resources, key: string): (r: Resources)
    ensures key in r.byName
  {
    if key in rs.byName then rs
    else Resources(rs.byName[key := NewResource(c, key)], rs.order + [key])
  }

  /** The manifest row of an operation: `manifest['<file>::<operationId>']`. */
  function ManifestEntry(c: Ctx, operationId: Json): Option<Json>
  {
    Get(c.manifest, c.filename + "::" + JsString(operationId))
  }

  /** An operation the loop acts on: an object with a truthy `operationId`. */
  predicate Listed(op: Json)
  {
    IsObjectLike(op) && TruthyOpt(Get(op, "operationId"))
  }

  /** An operation the manifest maps: a listed operation has a truthy row. */
  predicate Mapped(c: Ctx, op: Json)
  {
    Listed(op) ==> TruthyOpt(ManifestEntry(c, Get(op, "operationId").value))
  }

  /** What the inner loop reads from one operation before it looks at the
      resources built so far: nothing, a missing manifest row, or the row's
      resource key (and whether the name is a string), method name and sql
      verb with the method entry to record. */
  datatype Turn =
    | Skip
    | Unmapped
    | Row(key: string, named: bool, m: string, methodEntry: Json, sqlVerb: Option<Json>)

  /** The turn of the operation under HTTP verb `verb` of path `pathKey`:
      entries that are not objects and operations without an `operationId`
      are skipped. */
  function TurnOf(c: Ctx, pathKey: string, verb: string, op: Json): (t: Turn)
    ensures t.Skip? <==> !Listed(op)
    ensures t.Unmapped? <==> !Mapped(c, op)
  {
    if !Listed(op) then Skip
    else
      var entry := ManifestEntry(c, Get(op, "operationId").value);
      if !TruthyOpt(entry) then Unmapped
      else
        var rName := Get(entry.value, "stackql_resource_name");
        Row(PropKey(rName), rName.Some? && rName.value.Str?, PropKey(Get(entry.value, "stackql_method_name")),
            MethodJson(EncodeRefPath(pathKey, verb), SuccessResponseInfo(op)), Get(entry.value, "stackql_verb"))
  }

  /** One turn of the inner loop: an operation missing from the manifest, or
      a new resource whose name is not a string (`replace` is not a function
      then), ends `generate` with `false`. */
  function Apply(c: Ctx, rs: Resources, t: Turn): Result<Resources>
  {
    match t
    case Skip => Ok(rs)
    case Unmapped => Err("not found in manifest")
    case Row(key, named, m, methodEntry, sqlVerb) =>
      if key !in rs.byName && !named then Err(DocOperation.TypeError + ": resource.replace is not a function")
      else Ok(Record(WithResource(c, rs, key), key, m, methodEntry, sqlVerb))
  }

  /** The inner loop's turn for one operation. */
  function AddOperation(c: Ctx, rs: Resources, pathKey: string, verb: string, op: Json): (r: Result<Resources>)
    ensures !Listed(op) ==> r == Ok(rs)
    ensures !Mapped(c, op) ==> r.Err?
  {
    Apply(c, rs, TurnOf(c, pathKey, verb, op))
  }

  /** The turns of `Object.entries(pathItem)`. */
  function OpTurns(c: Ctx, pathKey: string, ops: seq<Entry>): (ts: seq<Turn>)
    ensures |ts| == |ops|
  {
    seq(|ops|, i requires 0 <= i < |ops| => TurnOf(c, pathKey, ops[i].key, ops[i].value))
  }

  /** The inner loop, first `n` turns. */
  function TurnsUpTo(c: Ctx, rs: Resources, turns: seq<Turn>, n: nat): Result<Resources>
    requires n <= |turns|
  {
    FoldEach((acc, t) => Apply(c, acc, t), rs, turns, n)
  }

  /** One turn of the outer loop: `Object.entries(null)` throws. */
  function AddPath(c: Ctx, rs: Resources, e: Entry): Result<Resources>
  {
    if e.value.Null? then Err(DocOperation.TypeError + ": cannot convert undefined or null to object")
    else TurnsUpTo(c, rs, OpTurns(c, e.key, Entries(e.value)), |Entries(e.value)|)
  }

  /** The outer loop over `Object.entries(spec.paths || {})`, first `n`
      turns. */
  function PathsUpTo(c: Ctx, paths: seq<Entry>, n: nat): Result<Resources>
    requires n <= |paths|
  {
    FoldEach((rs, e) => AddPath(c, rs, e), Resources(map[], []), paths, n)
  }

  /** `Object.entries(spec.paths || {})`. */
  function PathEntries(spec: Json): seq<Entry>
  {
    Entries(Or(Get(spec, "paths"), Obj([])))
  }

  /** The resources built from one spec file; reading `paths` of `null`
      throws. */
  function BuildResources(c: Ctx, spec: Json): Result<Resources>
  {
    if spec.Null? then Err(DocOperation.TypeError + ": cannot read properties of null (reading 'paths')")
    else PathsUpTo(c, PathEntries(spec), |PathEntries(spec)|)
  }

  /** The loops of `generate` for one spec file, building `resources` in
      place. */
  method GenerateResources(c: Ctx, spec: Json) returns (r: Result<Resources>)
    ensures r == BuildResources(c, spec)
  {
    if spec.Null? {
      return Err(DocOperation.TypeError + ": cannot read properties of null (reading 'paths')");
    }
    var paths := PathEntries(spec);
    var resources := Resources(map[], []);
    for i := 0 to |paths|
      invariant PathsUpTo(c, paths, i) == Ok(resources)
    {
      FoldEachStep((rs, e) => AddPath(c, rs, e), Resources(map[], []), paths, i, resources);
      var step := AddPathOne(c, resources, paths[i]);
      if step.Err? {
        ErrStaysPaths(c, paths, i + 1, |paths|);
        return step;
      }
      resources := step.value;
    }
    return Ok(resources);
  }

  /** The operations of one path; `Object.entries(null)` throws. */
  method AddPathOne(c: Ctx, rs: Resources, e: Entry) returns (r: Result<Resources>)
    ensures r == AddPath(c, rs, e)
  {
    if e.value.Null? {
      return Err(DocOperation.TypeError + ": cannot convert undefined or null to object");
    }
    r := AddPathOperations(c, rs, e.key, Entries(e.value));
  }

  /** The inner loop of `generate` over the operations of one path. */
  method AddPathOperations(c: Ctx, rs: Resources, pathKey: string, ops: seq<Entry>) returns (r: Result<Resources>)
    ensures r == TurnsUpTo(c, rs, OpTurns(c, pathKey, ops), |ops|)
  {
    ghost var turns := OpTurns(c, pathKey, ops);
    var resources := rs;
    for j := 0 to |ops|
      invariant TurnsUpTo(c, rs, turns, j) == Ok(resources)
    {
      FoldEachStep((acc, t) => Apply(c, acc, t), rs, turns, j, resources);
      var step := AddOperation(c, resources, pathKey, ops[j].key, ops[j].value);
      assert step == Apply(c, resources, turns[j]);
      if step.Err? {
        ErrStaysTurns(c, rs, turns, j + 1, |ops|);
        return step;
      }
      resources := step.value;
    }
    return Ok(resources);
  }

  lemma ErrStaysTurns(c: Ctx, rs: Resources, turns: seq<Turn>, n: nat, m: nat)
    requires n <= m <= |turns|
    requires TurnsUpTo(c, rs, turns, n).Err?
    ensures TurnsUpTo(c, rs, turns, m) == TurnsUpTo(c, rs, turns, n)
  {
    FoldEachErrStays((acc, t) => Apply(c, acc, t), rs, turns, n, m);
  }

  lemma ErrStaysPaths(c: Ctx, paths: seq<Entry>, n: nat, m: nat)
    requires n <= m <= |paths|
    requires PathsUpTo(c, paths, n).Err?
    ensures PathsUpTo(c, paths, m) == PathsUpTo(c, paths, n)
  {
    FoldEachErrStays((rs, e) => AddPath(c, rs, e), Resources(map[], []), paths, n, m);
  }

  // ---------------------------------------------------------------------
  // Properties of the resources built

  /** `ref` names a method recorded in `methods` of resource `key`. */
  predicate RefersToMethod(key: string, methods: seq<Entry>, ref: string)
  {
    exists m :: m in Keys(methods) && ref == MethodRef(key, m)
  }

  /** A resource under key `key` as `generate` builds it: its id, name and
      title come from the key, it has exactly the five sql verb lists, and
      every reference on them names one of its own methods. */
  ghost predicate ResourceOk(c: Ctx, key: string, res: Resource)
  {
    res.id == c.providerId + "." + c.serviceName + "." + key && res.name == key && res.title == Title(key) &&
    (forall v :: v in res.sqlVerbs <==> v in DocMethods.SqlVerbs) &&
    (forall v, i :: v in res.sqlVerbs && 0 <= i < |res.sqlVerbs[v]| ==>
       RefersToMethod(key, res.methods, res.sqlVerbs[v][i]))
  }

  /** The key order lists every resource once. */
  ghost predicate WellFormed(c: Ctx, rs: Resources)
  {
    NoDup(rs.order) && (forall k :: k in rs.byName <==> k in rs.order) &&
    (forall k :: k in rs.byName ==> ResourceOk(c, k, rs.byName[k]))
  }

  lemma NewResourceOk(c: Ctx, key: string)
    ensures ResourceOk(c, key, NewResource(c, key))
  {
  }

  lemma RecordInOk(c: Ctx, key: string, res: Resource, m: string, methodEntry: Json, sqlVerb: Option<Json>)
    requires ResourceOk(c, key, res)
    ensures ResourceOk(c, key, RecordIn(res, key, m, methodEntry, sqlVerb))
  {
    var methods := Put(res.methods, m, methodEntry);
    PutKeySet(res.methods, m, methodEntry);
    var r := RecordIn(res, key, m, methodEntry, sqlVerb);
    assert r.methods == methods;
    assert RefersToMethod(key, methods, MethodRef(key, m));
    forall v, i | v in r.sqlVerbs && 0 <= i < |r.sqlVerbs[v]|
      ensures RefersToMethod(key, methods, r.sqlVerbs[v][i])
    {
      if i < |res.sqlVerbs[v]| {
        assert r.sqlVerbs[v][i] == res.sqlVerbs[v][i];
        var m0 :| m0 in Keys(res.methods) && res.sqlVerbs[v][i] == MethodRef(key, m0);
        assert m0 in Keys(methods);
      }
    }
  }

  lemma WithResourceWellFormed(c: Ctx, rs: Resources, key: string)
    requires WellFormed(c, rs)
    ensures WellFormed(c, WithResource(c, rs, key))
  {
    if key !in rs.byName {
      NewResourceOk(c, key);
    }
  }

  lemma RecordWellFormed(c: Ctx, rs: Resources, key: string, m: string, methodEntry: Json, sqlVerb: Option<Json>)
    requires WellFormed(c, rs) && key in rs.byName
    ensures WellFormed(c, Record(rs, key, m, methodEntry, sqlVerb))
  {
    RecordInOk(c, key, rs.byName[key], m, methodEntry, sqlVerb);
  }

  /** One turn keeps the resources well formed. */
  lemma ApplyWellFormed(c: Ctx, rs: Resources, t: Turn)
    requires WellFormed(c, rs)
    requires Apply(c, rs, t).Ok?
    ensures WellFormed(c, Apply(c, rs, t).value)
  {
    if t.Row? {
      WithResourceWellFormed(c, rs, t.key);
      RecordWellFormed(c, WithResource(c, rs, t.key), t.key, t.m, t.methodEntry, t.sqlVerb);
    }
  }

  lemma {:induction false} TurnsUpToWellFormed(c: Ctx, rs: Resources, turns: seq<Turn>, n: nat)
    requires n <= |turns| && WellFormed(c, rs)
    requires TurnsUpTo(c, rs, turns, n).Ok?
    ensures WellFormed(c, TurnsUpTo(c, rs, turns, n).value)
  {
    if n > 0 {
      TurnsUpToWellFormed(c, rs, turns, n - 1);
      ApplyWellFormed(c, TurnsUpTo(c, rs, turns, n - 1).value, turns[n - 1]);
    }
  }

  lemma {:induction false} PathsUpToWellFormed(c: Ctx, paths: seq<Entry>, n: nat)
    requires n <= |paths|
    requires PathsUpTo(c, paths, n).Ok?
    ensures WellFormed(c, PathsUpTo(c, paths, n).value)
  {
    if n > 0 {
      PathsUpToWellFormed(c, paths, n - 1);
      var e := paths[n - 1];
      var turns := OpTurns(c, e.key, Entries(e.value));
      TurnsUpToWellFormed(c, PathsUpTo(c, paths, n - 1).value, turns, |turns|);
    }
  }

  /** Every resource `generate` builds is well formed: each `sqlVerbs`
      reference names a method of its own resource. */
  lemma BuildResourcesWellFormed(c: Ctx, spec: Json)
    requires BuildResources(c, spec).Ok?
    ensures WellFormed(c, BuildResources(c, spec).value)
  {
    PathsUpToWellFormed(c, PathEntries(spec), |PathEntries(spec)|);
  }

  /** The method list a verb had before the turn. */
  function ListBefore(rs: Resources, key: string, v: string): seq<string>
  {
    if key in rs.byName && v in rs.byName[key].sqlVerbs then rs.byName[key].sqlVerbs[v] else []
  }

  /** What recording a method does to its resource. */
  lemma RecordInEffect(res: Resource, key: string, m: string, methodEntry: Json, sqlVerb: Option<Json>)
    requires forall v :: v in res.sqlVerbs <==> v in DocMethods.SqlVerbs
    ensures var r := RecordIn(res, key, m, methodEntry, sqlVerb);
            Lookup(r.methods, m) == Some(methodEntry) &&
            (forall v :: v in DocMethods.SqlVerbs ==>
               v in r.sqlVerbs &&
               r.sqlVerbs[v] == res.sqlVerbs[v] + (if TruthyOpt(sqlVerb) && PropKey(sqlVerb) == v then [MethodRef(key, m)] else []))
  {
    assert "exec" !in DocMethods.SqlVerbs;
  }

  /** What one turn records: the method entry under the method name of the
      operation's resource, the reference appended to the list of a known
      sql verb and to no other list, and every other resource unchanged. */
  lemma AddOperationRecords(c: Ctx, rs: Resources, pathKey: string, verb: string, op: Json)
    requires WellFormed(c, rs) && Listed(op)
    requires AddOperation(c, rs, pathKey, verb, op).Ok?
    ensures var r := AddOperation(c, rs, pathKey, verb, op).value;
            var entry := ManifestEntry(c, Get(op, "operationId").value);
            var key := PropKey(Get(entry.value, "stackql_resource_name"));
            var m := PropKey(Get(entry.value, "stackql_method_name"));
            var sqlVerb := Get(entry.value, "stackql_verb");
            TruthyOpt(entry) && key in r.byName &&
            Lookup(r.byName[key].methods, m) == Some(MethodJson(EncodeRefPath(pathKey, verb), SuccessResponseInfo(op))) &&
            (forall v :: v in DocMethods.SqlVerbs ==>
               r.byName[key].sqlVerbs[v] ==
                 ListBefore(rs, key, v) + (if TruthyOpt(sqlVerb) && PropKey(sqlVerb) == v then [MethodRef(key, m)] else [])) &&
            (forall k :: k != key ==> (k in r.byName <==> k in rs.byName)) &&
            (forall k :: k != key && k in rs.byName ==> r.byName[k] == rs.byName[k])
  {
    var t := TurnOf(c, pathKey, verb, op);
    var base := WithResource(c, rs, t.key);
    WithResourceWellFormed(c, rs, t.key);
    assert ResourceOk(c, t.key, base.byName[t.key]);
    forall v | v in DocMethods.SqlVerbs
      ensures base.byName[t.key].sqlVerbs[v] == ListBefore(rs, t.key, v)
    {
    }
    RecordInEffect(base.byName[t.key], t.key, t.m, t.methodEntry, t.sqlVerb);
  }

  lemma {:induction false} TurnsUpToMapped(c: Ctx, rs: Resources, turns: seq<Turn>, n: nat)
    requires n <= |turns|
    requires TurnsUpTo(c, rs, turns, n).Ok?
    ensures forall j :: 0 <= j < n ==> !turns[j].Unmapped?
  {
    if n > 0 {
      TurnsUpToMapped(c, rs, turns, n - 1);
    }
  }

  lemma {:induction false} PathsUpToMapped(c: Ctx, paths: seq<Entry>, n: nat)
    requires n <= |paths|
    requires PathsUpTo(c, paths, n).Ok?
    ensures forall i :: 0 <= i < n ==>
              (!paths[i].value.Null? &&
               forall j :: 0 <= j < |Entries(paths[i].value)| ==> Mapped(c, Entries(paths[i].value)[j].value))
  {
    if n > 0 {
      PathsUpToMapped(c, paths, n - 1);
      var e := paths[n - 1];
      var turns := OpTurns(c, e.key, Entries(e.value));
      TurnsUpToMapped(c, PathsUpTo(c, paths, n - 1).value, turns, |turns|);
      forall j | 0 <= j < |Entries(e.value)|
        ensures Mapped(c, Entries(e.value)[j].value)
      {
        assert turns[j] == TurnOf(c, e.key, Entries(e.value)[j].key, Entries(e.value)[j].value);
      }
    }
  }

  /** `generate` gets past a spec file only if every operation with an
      `operationId` has a row in the manifest: one missing row makes it
      return `false`. */
  lemma BuildResourcesMapped(c: Ctx, spec: Json)
    requires BuildResources(c, spec).Ok?
    ensures var paths := PathEntries(spec);
            forall i, j :: 0 <= i < |paths| && 0 <= j < |Entries(paths[i].value)| ==>
              Mapped(c, Entries(paths[i].value)[j].value)
  {
    PathsUpToMapped(c, PathEntries(spec), |PathEntries(spec)|);
  }

  // ---------------------------------------------------------------------
  // The document written back

  /** `[{ $ref: ref }, ...]`. */
  function RefList(refs: seq<string>): seq<Json>
  {
    seq(|refs|, i requires 0 <= i < |refs| => Obj([Entry("$ref", Str(refs[i]))]))
  }

  /** A resource as it appears in the written document. */
  function ResourceJson(res: Resource): Json
  {
    var verbs := DocMethods.SqlVerbs;
    Obj([Entry("id", Str(res.id)), Entry("name", Str(res.name)), Entry("title", Str(res.title)),
         Entry("methods", Obj(res.methods)),
         Entry("sqlVerbs", Obj(seq(|verbs|, i requires 0 <= i < |verbs| =>
           Entry(verbs[i], Arr(RefList(if verbs[i] in res.sqlVerbs then res.sqlVerbs[verbs[i]] else []))))))])
  }

  /** The `resources` object, its keys in the order they were added. */
  function ResourcesJson(rs: Resources): (r: Json)
    ensures r.Obj? && Keys(r.entries) == rs.order
  {
    Obj(seq(|rs.order|, i requires 0 <= i < |rs.order| =>
      Entry(rs.order[i], if rs.order[i] in rs.byName then ResourceJson(rs.byName[rs.order[i]]) else Null)))
  }

  /** `spec.components ||= {}; spec.components['x-stackQL-resources'] =
      resources`: only the resources are added; assigning a property of a
      string, number or boolean throws in module code. */
  function InjectResources(spec: Json, rs: Resources): (r: Result<Json>)
    ensures r.Ok? <==> spec.Obj? && (TruthyOpt(Get(spec, "components")) ==> Get(spec, "components").value.Obj?)
    ensures r.Ok? ==> r.value.Obj? && Get(r.value, "components").Some? &&
                      Get(Get(r.value, "components").value, "x-stackQL-resources") == Some(ResourcesJson(rs))
    ensures r.Ok? ==> forall k :: k != "components" ==> Get(r.value, k) == Get(spec, k)
    ensures r.Ok? && TruthyOpt(Get(spec, "components")) ==>
              forall k :: k != "x-stackQL-resources" ==>
                Get(Get(r.value, "components").value, k) == Get(Get(spec, "components").value, k)
  {
    if !spec.Obj? then Err(DocOperation.TypeError + ": cannot create property 'components'")
    else
      var comp := Get(spec, "components");
      if TruthyOpt(comp) && !comp.value.Obj? then Err(DocOperation.TypeError + ": cannot create property 'x-stackQL-resources'")
      else
        var es := if TruthyOpt(comp) then comp.value.entries else [];
        Ok(Obj(Put(spec.entries, "components", Obj(Put(es, "x-stackQL-resources", ResourcesJson(rs))))))
  }
}
