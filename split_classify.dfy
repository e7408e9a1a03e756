/** The pure helpers of `src/providerdev/split.js` that decide where an
    operation goes: the exclude test, the service name and description, and
    the skeleton of a new service document. */
module SplitClassify {
  import opened Base
  import opened Text
  import opened JsonModel
  import opened Utils

  const ComponentsChildren: seq<string> :=
    ["schemas", "responses", "parameters", "examples", "requestBodies", "headers", "securitySchemes", "links", "callbacks"]

  /** `exclude ? exclude.split(",") : []`, with an absent option given as the
      empty string: the comma-separated segments of the option, which join
      back into it. */
  function ExcludeList(exclude: string): (r: seq<string>)
    ensures exclude == [] <==> r == []
    ensures forall i :: 0 <= i < |r| ==> ',' !in r[i]
    ensures exclude != [] ==> Join(r, ",") == exclude
  {
    if exclude == [] then []
    else
      SplitJoin(exclude, ',');
      Split(exclude, ',')
  }

  /** Some tag of the array is a string listed in `exclude`. */
  predicate AnyTagIn(tags: seq<Json>, exclude: seq<string>)
  {
    exists i :: 0 <= i < |tags| && tags[i].Str? && tags[i].s in exclude
  }

  /** `isOperationExcluded(exclude, opItem)`: with a non-empty list, an
      operation is excluded when one of its tags is listed; truthy tags that
      are not an array make `.some` throw. */
  function IsOperationExcluded(exclude: seq<string>, op: Json): (r: Result<bool>)
    ensures r == Ok(true) <==> |exclude| > 0 && Get(op, "tags").Some?
                               && Get(op, "tags").value.Arr? && AnyTagIn(Get(op, "tags").value.items, exclude)
    ensures r.Err? <==> |exclude| > 0 && TruthyOpt(Get(op, "tags")) && !Get(op, "tags").value.Arr?
  {
    if |exclude| == 0 then Ok(false)
    else
      var tags := Get(op, "tags");
      if !TruthyOpt(tags) then Ok(false)
      else match tags.value
        case Arr(items) => Ok(AnyTagIn(items, exclude))
        case _ => Err("TypeError: opItem.tags.some is not a function")
  }

  /** `.replace(/-/g, '_').replace(/ /g, '_')` after lower-casing. */
  function TagServiceName(tag: string): (r: string)
    ensures |r| == |tag| && !HasUpper(r) && '-' !in r && ' ' !in r
  {
    var r := MapChar(MapChar(ToLower(tag), '-', '_'), ' ', '_');
    assert !HasUpper(r) by {
      ToLowerNoUpper(tag);
      forall i | 0 <= i < |r| ensures !IsUpper(r[i]) {
        assert r[i] == '_' || r[i] == ToLower(tag)[i];
      }
    }
    r
  }

  /** The same normalisation for a path segment, which also maps `.`. */
  function PathServiceName(seg: string): (r: string)
    ensures |r| == |seg| && !HasUpper(r) && '-' !in r && ' ' !in r && '.' !in r
  {
    var r := MapChar(MapChar(MapChar(ToLower(seg), '-', '_'), ' ', '_'), '.', '_');
    assert !HasUpper(r) by {
      ToLowerNoUpper(seg);
      forall i | 0 <= i < |r| ensures !IsUpper(r[i]) {
        assert r[i] == '_' || r[i] == ToLower(seg)[i];
      }
    }
    r
  }

  /** `/^v\d+$/`. */
  predicate IsVersion(s: string)
  {
    |s| >= 2 && s[0] == 'v' && forall i :: 1 <= i < |s| ==> IsDigit(s[i])
  }

  /** A path segment that names no service: `api` or a version, in any case. */
  predicate Insignificant(seg: string)
  {
    ToLower(seg) == "api" || IsVersion(ToLower(seg))
  }

  /** The index of the first significant segment, if there is one. */
  function FirstSignificant(parts: seq<string>): (r: Option<nat>)
    ensures r.Some? ==> r.value < |parts| && !Insignificant(parts[r.value])
                        && forall i :: 0 <= i < r.value ==> Insignificant(parts[i])
    ensures r.None? ==> forall i :: 0 <= i < |parts| ==> Insignificant(parts[i])
    decreases |parts|
  {
    if parts == [] then None
    else if !Insignificant(parts[0]) then Some(0)
    else match FirstSignificant(parts[1..])
      case None => None
      case Some(k) => Some(k + 1)
  }

  /** `pathKey.replace(/^\//, '').split('/')`. */
  function PathParts(pathKey: string): seq<string>
  {
    Split(if |pathKey| > 0 && pathKey[0] == '/' then pathKey[1..] else pathKey, '/')
  }

  /** `opItem.tags[0]` when the tag branch applies (`opItem.tags` truthy with
      a positive length): `None` when it does not, an error when the first tag
      has no `toLowerCase`. A string of tags gives its first character. */
  function FirstTag(op: Json): Option<Result<string>>
  {
    var tags := Get(op, "tags");
    if !TruthyOpt(tags) then None
    else match tags.value
      case Arr(items) =>
        if |items| == 0 then None
        else if items[0].Str? then Some(Ok(items[0].s))
        else Some(Err("TypeError: opItem.tags[0].toLowerCase is not a function"))
      case Str(s) => Some(Ok([s[0]]))
      case _ => None
  }

  /** The description of the tag named `service` in `allTags`, or `dflt`:
      the first entry whose `name` is exactly the normalised service name
      decides. Reading `name` of a `null` entry throws. */
  function FindTagDesc(items: seq<Json>, service: string, dflt: Json): Result<Json>
    decreases |items|
  {
    if items == [] then Ok(dflt)
    else if items[0].Null? then Err("TypeError: cannot read properties of null (reading 'name')")
    else if Get(items[0], "name") == Some(Str(service)) then
      var d := Get(items[0], "description");
      Ok(if TruthyOpt(d) then d.value else dflt)
    else FindTagDesc(items[1..], service, dflt)
  }

  /** `for (const tag of allTags)` over `apiDocObj.tags || []`: an array is
      searched, a string has no entry with a `name`, anything else is not
      iterable. */
  function TagDesc(allTags: Json, service: string, dflt: Json): Result<Json>
  {
    match allTags
    case Arr(items) => FindTagDesc(items, service, dflt)
    case Str(_) => Ok(dflt)
    case _ => Err("TypeError: allTags is not iterable")
  }

  /** The name and description before `skip` and the overrides apply. */
  function BaseNameAndDesc(provider: string, op: Json, pathKey: string, disc: string, allTags: Json)
    : Result<(string, Json)>
  {
    var dflt := Str(provider + " API");
    if disc == "tag" && FirstTag(op).Some? then
      var tag :- FirstTag(op).value;
      var service := TagServiceName(tag);
      var desc :- TagDesc(allTags, service, dflt);
      Ok((service, desc))
    else if disc == "path" then
      var parts := PathParts(pathKey);
      var service := match FirstSignificant(parts)
        case Some(k) => PathServiceName(parts[k])
        case None => "default";
      Ok((service, Str(provider + " " + service + " API")))
    else Ok(("default", dflt))
  }

  /** `retServiceNameAndDesc(...)`: `skip` wins; otherwise a non-empty
      override renames the service (and, for the path discriminator, its
      description). */
  function RetServiceNameAndDesc(provider: string, op: Json, pathKey: string, disc: string,
                                 allTags: Json, overrides: map<string, string>)
    : (r: Result<(string, Json)>)
    ensures r.Err? <==> BaseNameAndDesc(provider, op, pathKey, disc, allTags).Err?
  {
    var (service, desc) :- BaseNameAndDesc(provider, op, pathKey, disc, allTags);
    if service == "skip" then Ok(("skip", Str("")))
    else if service in overrides && overrides[service] != [] then
      var newName := overrides[service];
      Ok((newName, if disc == "path" then Str(provider + " " + newName + " API") else desc))
    else Ok((service, desc))
  }

  /** A service document being built: `openapi`, `info`, `paths`,
      `components` and, when the source has them, `servers`, in that key
      order. */
  datatype Service = Service(openapi: Json, info: Json, paths: seq<Entry>, components: seq<Entry>, servers: Option<Json>)

  function ServiceJson(svc: Service): Json
  {
    Obj([Entry("openapi", svc.openapi), Entry("info", svc.info), Entry("paths", Obj(svc.paths)),
         Entry("components", Obj(svc.components))]
        + (if svc.servers.Some? then [Entry("servers", svc.servers.value)] else []))
  }

  function EmptyBuckets(names: seq<string>): (es: seq<Entry>)
    ensures Keys(es) == names
    ensures forall i :: 0 <= i < |es| ==> es[i].value == Obj([])
  {
    var es := seq(|names|, i requires 0 <= i < |names| => Entry(names[i], Obj([])));
    assert Keys(es) == names;
    es
  }

  /** `initService(...)`: the source's `openapi` version or 3.0.0, a title
      made from the service name, the source's `info.version` or 1.0.0, no
      paths, one empty bucket per component type, and the source's servers
      when truthy. */
  function InitService(service: string, desc: Json, doc: Json): (svc: Service)
    ensures Truthy(svc.openapi) && svc.paths == []
    ensures Keys(svc.components) == ComponentsChildren
    ensures forall i :: 0 <= i < |svc.components| ==> svc.components[i].value == Obj([])
    ensures svc.servers.Some? <==> TruthyOpt(Get(doc, "servers"))
  {
    var info := Get(doc, "info");
    var version := Or(if info.Some? then Get(info.value, "version") else None, Str("1.0.0"));
    var es := [Entry("title", Str(service + " API")), Entry("description", desc), Entry("version", version)];
    var dfltVersion := Str("3.0.0");
    assert Truthy(dfltVersion) by { assert |dfltVersion.s| == 5; }
    Service(Or(Get(doc, "openapi"), dfltVersion),
            Obj(es),
            [], EmptyBuckets(ComponentsChildren),
            if TruthyOpt(Get(doc, "servers")) then Some(Get(doc, "servers").value) else None)
  }

  // Naming rules, stated on the full function.

  /** With the tag discriminator and a first tag that is a string, the name
      is that tag lower-cased with `-` and space mapped to `_`, unless that is
      `skip` or an override replaces it. */
  lemma TagNaming(provider: string, op: Json, pathKey: string, allTags: Json,
                  overrides: map<string, string>, tag: string)
    requires FirstTag(op) == Some(Ok(tag))
    requires RetServiceNameAndDesc(provider, op, pathKey, "tag", allTags, overrides).Ok?
    ensures var name := RetServiceNameAndDesc(provider, op, pathKey, "tag", allTags, overrides).value.0;
            var base := TagServiceName(tag);
            name == (if base == "skip" then "skip"
                     else if base in overrides && overrides[base] != [] then overrides[base]
                     else base)
  {
  }

  /** With the path discriminator, the name comes from the first segment that
      is neither `api` nor a version (or is `default`), and the description
      names the final service. */
  lemma PathNaming(provider: string, op: Json, pathKey: string, allTags: Json,
                   overrides: map<string, string>)
    ensures var r := RetServiceNameAndDesc(provider, op, pathKey, "path", allTags, overrides);
            var parts := PathParts(pathKey);
            var base := if exists k :: 0 <= k < |parts| && !Insignificant(parts[k])
                        then PathServiceName(parts[FirstSignificant(parts).value]) else "default";
            r.Ok? &&
            r.value.0 == (if base == "skip" then "skip"
                          else if base in overrides && overrides[base] != [] then overrides[base]
                          else base) &&
            (r.value.0 != "skip" ==> r.value.1 == Str(provider + " " + r.value.0 + " API"))
  {
    var parts := PathParts(pathKey);
    if FirstSignificant(parts).Some? {
      var k := FirstSignificant(parts).value;
      assert 0 <= k < |parts| && !Insignificant(parts[k]);
    }
  }

  /** Any other discriminator gives `default` (before overrides). */
  lemma DefaultNaming(provider: string, op: Json, pathKey: string, disc: string, allTags: Json,
                      overrides: map<string, string>)
    requires disc != "tag" && disc != "path"
    ensures RetServiceNameAndDesc(provider, op, pathKey, disc, allTags, overrides)
            == Ok((if "default" in overrides && overrides["default"] != [] then overrides["default"] else "default",
                   Str(provider + " API")))
  {
  }

  /** The tag description search compares the normalised service name with
      `tag.name`: a tag whose name differs from its normalised form never
      lends its description. */
  lemma {:induction false} TagDescNeedsNormalName(items: seq<Json>, service: string, dflt: Json)
    requires FindTagDesc(items, service, dflt).Ok?
    requires FindTagDesc(items, service, dflt).value != dflt
    ensures exists i :: 0 <= i < |items| && Get(items[i], "name") == Some(Str(service))
    decreases |items|
  {
    if Get(items[0], "name") != Some(Str(service)) {
      TagDescNeedsNormalName(items[1..], service, dflt);
      var j :| 0 <= j < |items[1..]| && Get(items[1..][j], "name") == Some(Str(service));
      assert items[j + 1] == items[1..][j];
    }
  }
}
