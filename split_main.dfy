/** The in-memory phases of `split()` in `src/providerdev/split.js`: the
    source document's operations are sorted into services, each service
    collects the components its operations refer to, hyphenated path
    placeholders are renamed, missing `type: object` entries are added and
    empty component buckets are dropped. Reading the source file and writing
    one file per service are left to the caller: the input is the parsed
    document and the result is the map from service name to document. */
module SplitMain {
  import opened Base
  import opened Text
  import opened JsonModel
  import opened Utils
  import opened SplitRefs
  import opened SplitClosure
  import opened SplitClassify
  import opened SplitPost

  /** The options split() reads: the provider name, the discriminator, the
      comma-separated exclude list (empty when not given) and the service
      name overrides. */
  datatype Options = Options(provider: string, disc: string, exclude: string, overrides: map<string, string>)

  /** `apiDocObj.paths || {}`. */
  function PathsOf(doc: Json): seq<Entry>
  {
    Entries(Or(Get(doc, "paths"), Obj([])))
  }

  /** `apiDocObj.tags || []`. */
  function AllTags(doc: Json): Json
  {
    Or(Get(doc, "tags"), Arr([]))
  }

  /** `apiDocObj.components || {}`. */
  function SrcComponents(doc: Json): Json
  {
    Or(Get(doc, "components"), Obj([]))
  }

  predicate IsOp(key: string)
  {
    key in Operations
  }

  /** Where an operation goes: `None` when it is excluded or its service is
      `skip`, else the service name and description. */
  function Destination(cfg: Options, doc: Json, pathKey: string, op: Json): Result<Option<(string, Json)>>
  {
    var excluded :- IsOperationExcluded(ExcludeList(cfg.exclude), op);
    if excluded then Ok(None)
    else
      var (service, desc) :- RetServiceNameAndDesc(cfg.provider, op, pathKey, cfg.disc, AllTags(doc), cfg.overrides);
      if service == "skip" then Ok(None) else Ok(Some((service, desc)))
  }

  /** An excluded operation, or one named `skip`, has no destination. */
  lemma DestinationDrops(cfg: Options, doc: Json, pathKey: string, op: Json)
    requires Destination(cfg, doc, pathKey, op).Ok?
    ensures IsOperationExcluded(ExcludeList(cfg.exclude), op) == Ok(true) ==> Destination(cfg, doc, pathKey, op) == Ok(None)
    ensures Destination(cfg, doc, pathKey, op).value.Some? ==>
              IsOperationExcluded(ExcludeList(cfg.exclude), op) == Ok(false)
              && Destination(cfg, doc, pathKey, op).value.value.0 != "skip"
              && Destination(cfg, doc, pathKey, op).value.value
                 == RetServiceNameAndDesc(cfg.provider, op, pathKey, cfg.disc, AllTags(doc), cfg.overrides).value
  {
  }

  /** The GitHub special case: an operation whose `x-github.subcategory` is
      truthy gets `x-stackQL-resource` set to that subcategory in snake case;
      `camelToSnake` throws on a subcategory that is not a string. */
  function GithubResource(provider: string, op: Json): (r: Result<Json>)
    ensures provider != "github" ==> r == Ok(op)
  {
    var gh := Get(op, "x-github");
    if provider == "github" && TruthyOpt(gh) && TruthyOpt(Get(gh.value, "subcategory")) then
      match Get(gh.value, "subcategory").value
      case Str(sub) => Ok(Obj(Put(op.entries, "x-stackQL-resource", Str(CamelToSnake(sub)))))
      case _ => Err("TypeError: name.replace is not a function")
    else Ok(op)
  }

  /** A service's path item (always an object once created). */
  function ItemOf(paths: seq<Entry>, pathKey: string): seq<Entry>
  {
    match Lookup(paths, pathKey)
    case Some(Obj(es)) => es
    case _ => []
  }

  /** The `services` object: each service's document by name, and the
      names in the order they were first created (the object's key order,
      which the later passes follow). */
  datatype Services = Services(byName: map<string, Service>, order: seq<string>)

  /** Every service appears once in the key order. */
  predicate Ordered(s: Services)
  {
    NoDup(s.order) && Elems(s.order) == s.byName.Keys
  }

  /** Every component bucket is an object. */
  predicate AllObj(comps: seq<Entry>)
  {
    forall e :: e in comps ==> e.value.Obj?
  }

  /** The key order is exact and every service's component buckets are
      objects, as initService creates them. */
  predicate WellFormed(s: Services)
  {
    Ordered(s) && forall name :: name in s.byName ==> AllObj(s.byName[name].components)
  }

  /** The services so far and the `pathServices` set of the current path. */
  datatype Acc = Acc(svcs: Services, pathServices: seq<string>)

  /** One entry of a path item in the first pass: an operation that is kept
      is stored under its verb in its service's copy of the path, creating
      the service on first use. */
  function PlaceOp(cfg: Options, doc: Json, pathKey: string, acc: Acc, e: Entry): Result<Acc>
  {
    if !IsOp(e.key) || !Truthy(e.value) then Ok(acc)
    else match Destination(cfg, doc, pathKey, e.value)
      case Err(err) => Err(err)
      case Ok(None) => Ok(acc)
      case Ok(Some((service, desc))) =>
        match GithubResource(cfg.provider, e.value)
        case Err(err) => Err(err)
        case Ok(op) => Ok(Placed(acc, service, desc, doc, pathKey, e.key, op))
  }

  /** The operation `op` stored under verb `v` of path `pathKey` in
      `service`, which is created first if needed and added to the path's
      services. */
  function Placed(acc: Acc, service: string, desc: Json, doc: Json, pathKey: string, v: string, op: Json): Acc
  {
    var byName := acc.svcs.byName;
    var order := if service in byName then acc.svcs.order else acc.svcs.order + [service];
    Acc(Services(Store(WithService(byName, service, desc, doc), service, pathKey, v, op), order),
        SetAdd(acc.pathServices, service))
  }

  /** `if (!services[service]) services[service] = initService(...)`. */
  function WithService(services: map<string, Service>, service: string, desc: Json, doc: Json): (r: map<string, Service>)
    ensures r.Keys == services.Keys + {service}
    ensures forall name :: name in services ==> r[name] == services[name]
    ensures service !in services ==> AllObj(r[service].components)
  {
    if service in services then services else services[service := InitService(service, desc, doc)]
  }

  /** `services[service].paths[pathKey][v] = op`, creating the path item. */
  function Store(services: map<string, Service>, service: string, pathKey: string, v: string, op: Json): (r: map<string, Service>)
    requires service in services
    ensures r.Keys == services.Keys
    ensures forall name :: name in services ==> r[name].components == services[name].components
  {
    var svc := services[service];
    services[service := svc.(paths := Put(svc.paths, pathKey, Obj(Put(ItemOf(svc.paths, pathKey), v, op))))]
  }

  /** The loop over the first `n` entries of a path item. */
  function OpsUpTo(cfg: Options, doc: Json, pathKey: string, item: seq<Entry>, n: nat, acc: Acc): Result<Acc>
    requires n <= |item|
  {
    if n == 0 then Ok(acc)
    else match OpsUpTo(cfg, doc, pathKey, item, n - 1, acc)
      case Err(e) => Err(e)
      case Ok(a) => PlaceOp(cfg, doc, pathKey, a, item[n - 1])
  }

  /** `for (const key in pathItem) if (!OPERATIONS.includes(key)) ...`: the
      first `n` non-operation entries of `src` copied into a service's path
      item. */
  function CopyNonOps(item: seq<Entry>, src: seq<Entry>, n: nat): seq<Entry>
    requires n <= |src|
  {
    if n == 0 then item
    else
      var prev := CopyNonOps(item, src, n - 1);
      if IsOp(src[n - 1].key) then prev else Put(prev, src[n - 1].key, src[n - 1].value)
  }

  /** The path-level copy for the first `n` services of `pathServices`. */
  function CopyToServices(services: map<string, Service>, names: seq<string>, n: nat, pathKey: string, src: seq<Entry>)
    : map<string, Service>
    requires n <= |names|
  {
    if n == 0 then services
    else CopyInto(CopyToServices(services, names, n - 1, pathKey, src), names[n - 1], pathKey, src)
  }

  /** The copy into the service `name`, when it exists. */
  function CopyInto(prev: map<string, Service>, name: string, pathKey: string, src: seq<Entry>): map<string, Service>
  {
    if name in prev then
      var svc := prev[name];
      prev[name := svc.(paths := Put(svc.paths, pathKey, Obj(CopyNonOps(ItemOf(svc.paths, pathKey), src, |src|))))]
    else prev
  }

  /** One path of the first pass: skipped when falsy; otherwise its
      operations are placed, then every service that took one of them gets
      the path's non-operation entries. */
  function ClassifyPath(cfg: Options, doc: Json, s: Services, e: Entry): Result<Services>
  {
    if !Truthy(e.value) then Ok(s)
    else
      var item := Entries(e.value);
      match OpsUpTo(cfg, doc, e.key, item, |item|, Acc(s, []))
      case Err(err) => Err(err)
      case Ok(acc) =>
        Ok(acc.svcs.(byName := CopyToServices(acc.svcs.byName, acc.pathServices, |acc.pathServices|, e.key, item)))
  }

  /** The first pass over the first `n` paths. */
  function ClassifyUpTo(cfg: Options, doc: Json, paths: seq<Entry>, n: nat): Result<Services>
    requires n <= |paths|
  {
    if n == 0 then Ok(Services(map[], []))
    else match ClassifyUpTo(cfg, doc, paths, n - 1)
      case Err(e) => Err(e)
      case Ok(s) => ClassifyPath(cfg, doc, s, paths[n - 1])
  }

  /** The first pass: identify the services and collect their operations. */
  function Classify(cfg: Options, doc: Json): Result<Services>
  {
    ClassifyUpTo(cfg, doc, PathsOf(doc), |PathsOf(doc)|)
  }

  // ---------------------------------------------------------------------
  // Soundness of the first pass
  // ---------------------------------------------------------------------

  /** `op` is stored under verb `v` of a truthy path `pathKey` of the source. */
  ghost predicate SourceOp(doc: Json, pathKey: string, v: string, op: Json)
  {
    exists p :: Entry(pathKey, p) in PathsOf(doc) && Truthy(p) && Entry(v, op) in Entries(p)
  }

  /** The operation `op` of the source is sent to service `s`. */
  predicate SentTo(cfg: Options, doc: Json, pathKey: string, op: Json, s: string)
  {
    var d := Destination(cfg, doc, pathKey, op);
    d.Ok? && d.value.Some? && d.value.value.0 == s
  }

  /** Every operation stored in a service is a source operation stored under
      the same path and verb, sent to that service (so neither excluded nor
      skipped), with the GitHub resource name added where it applies. */
  ghost predicate Sound(cfg: Options, doc: Json, services: map<string, Service>)
  {
    forall s, pathKey, v :: s in services && IsOp(v) && Lookup(ItemOf(services[s].paths, pathKey), v).Some? ==>
      exists op :: SourceOp(doc, pathKey, v, op) && SentTo(cfg, doc, pathKey, op, s)
                   && GithubResource(cfg.provider, op) == Ok(Lookup(ItemOf(services[s].paths, pathKey), v).value)
  }

  /** Storing operation `o` under verb `v0` of path `pathKey` in a service
      (new ones start with no paths) keeps the first pass sound when `o`
      comes from a source operation sent there. */
  lemma StoreSound(cfg: Options, doc: Json, services: map<string, Service>, svcs: map<string, Service>, service: string,
                   pathKey: string, v0: string, op0: Json, o: Json)
    requires Sound(cfg, doc, services)
    requires service in svcs
    requires svcs == services || (service !in services && svcs == services[service := svcs[service]] && svcs[service].paths == [])
    requires SourceOp(doc, pathKey, v0, op0) && SentTo(cfg, doc, pathKey, op0, service)
    requires GithubResource(cfg.provider, op0) == Ok(o)
    ensures Sound(cfg, doc, Store(svcs, service, pathKey, v0, o))
  {
    var svc0 := svcs[service];
    var item := Put(ItemOf(svc0.paths, pathKey), v0, o);
    var res := Store(svcs, service, pathKey, v0, o);
    forall s, k, v | s in res && IsOp(v) && Lookup(ItemOf(res[s].paths, k), v).Some?
      ensures exists op :: SourceOp(doc, k, v, op) && SentTo(cfg, doc, k, op, s)
                           && GithubResource(cfg.provider, op) == Ok(Lookup(ItemOf(res[s].paths, k), v).value)
    {
      if s != service {
        assert res[s] == services[s];
      } else if k != pathKey {
        assert ItemOf(res[s].paths, k) == ItemOf(svc0.paths, k);
      } else if v == v0 {
        assert ItemOf(res[s].paths, k) == item;
      } else {
        assert ItemOf(res[s].paths, k) == item;
        assert Lookup(item, v) == Lookup(ItemOf(svc0.paths, k), v);
      }
    }
  }

  lemma PlaceOpSound(cfg: Options, doc: Json, pathKey: string, p: Json, acc: Acc, e: Entry)
    requires Entry(pathKey, p) in PathsOf(doc) && Truthy(p) && e in Entries(p)
    requires Sound(cfg, doc, acc.svcs.byName)
    requires PlaceOp(cfg, doc, pathKey, acc, e).Ok?
    ensures Sound(cfg, doc, PlaceOp(cfg, doc, pathKey, acc, e).value.svcs.byName)
  {
    if IsOp(e.key) && Truthy(e.value) && Destination(cfg, doc, pathKey, e.value).value.Some? {
      var (service, desc) := Destination(cfg, doc, pathKey, e.value).value.value;
      assert SourceOp(doc, pathKey, e.key, e.value);
      PlaceSentSound(cfg, doc, pathKey, acc, service, desc, e.key, e.value);
    }
  }

  lemma PlaceSentSound(cfg: Options, doc: Json, pathKey: string, acc: Acc, service: string, desc: Json,
                       v: string, op0: Json)
    requires Sound(cfg, doc, acc.svcs.byName)
    requires SourceOp(doc, pathKey, v, op0) && SentTo(cfg, doc, pathKey, op0, service)
    requires GithubResource(cfg.provider, op0).Ok?
    ensures Sound(cfg, doc, Placed(acc, service, desc, doc, pathKey, v, GithubResource(cfg.provider, op0).value).svcs.byName)
  {
    StoreSound(cfg, doc, acc.svcs.byName, WithService(acc.svcs.byName, service, desc, doc), service, pathKey, v, op0,
               GithubResource(cfg.provider, op0).value);
  }

  lemma {:induction false} OpsUpToSound(cfg: Options, doc: Json, pathKey: string, p: Json, n: nat, acc: Acc)
    requires Entry(pathKey, p) in PathsOf(doc) && Truthy(p) && n <= |Entries(p)|
    requires Sound(cfg, doc, acc.svcs.byName)
    requires OpsUpTo(cfg, doc, pathKey, Entries(p), n, acc).Ok?
    ensures Sound(cfg, doc, OpsUpTo(cfg, doc, pathKey, Entries(p), n, acc).value.svcs.byName)
    decreases n
  {
    if n > 0 {
      OpsUpToSound(cfg, doc, pathKey, p, n - 1, acc);
      var a := OpsUpTo(cfg, doc, pathKey, Entries(p), n - 1, acc).value;
      PlaceOpSound(cfg, doc, pathKey, p, a, Entries(p)[n - 1]);
    }
  }

  /** Copying non-operation entries leaves every operation key alone. */
  lemma {:induction false} CopyNonOpsKeepsOps(item: seq<Entry>, src: seq<Entry>, n: nat, v: string)
    requires n <= |src| && IsOp(v)
    ensures Lookup(CopyNonOps(item, src, n), v) == Lookup(item, v)
    decreases n
  {
    if n > 0 {
      CopyNonOpsKeepsOps(item, src, n - 1, v);
    }
  }

  lemma {:induction false} CopyToServicesSound(cfg: Options, doc: Json, services: map<string, Service>, names: seq<string>,
                                               n: nat, pathKey: string, src: seq<Entry>)
    requires n <= |names|
    requires Sound(cfg, doc, services)
    ensures Sound(cfg, doc, CopyToServices(services, names, n, pathKey, src))
    decreases n
  {
    if n > 0 {
      CopyToServicesSound(cfg, doc, services, names, n - 1, pathKey, src);
      CopyIntoSound(cfg, doc, CopyToServices(services, names, n - 1, pathKey, src), names[n - 1], pathKey, src);
    }
  }

  /** Copying non-operation entries into a service keeps the first pass
      sound. */
  lemma CopyIntoSound(cfg: Options, doc: Json, prev: map<string, Service>, name: string, pathKey: string, src: seq<Entry>)
    requires Sound(cfg, doc, prev)
    ensures Sound(cfg, doc, CopyInto(prev, name, pathKey, src))
  {
    CopyIntoKeepsOps(prev, name, pathKey, src);
  }

  /** The copy changes no operation of any service. */
  lemma CopyIntoKeepsOps(prev: map<string, Service>, name: string, pathKey: string, src: seq<Entry>)
    ensures var res := CopyInto(prev, name, pathKey, src);
            res.Keys == prev.Keys &&
            forall s, k, v :: s in res && IsOp(v) ==> Lookup(ItemOf(res[s].paths, k), v) == Lookup(ItemOf(prev[s].paths, k), v)
  {
    var res := CopyInto(prev, name, pathKey, src);
    forall s, k, v | s in res && IsOp(v)
      ensures Lookup(ItemOf(res[s].paths, k), v) == Lookup(ItemOf(prev[s].paths, k), v)
    {
      if s == name && k == pathKey {
        CopyNonOpsKeepsOps(ItemOf(prev[s].paths, k), src, |src|, v);
      }
    }
  }

  lemma ClassifyPathSound(cfg: Options, doc: Json, s: Services, e: Entry)
    requires e in PathsOf(doc)
    requires Sound(cfg, doc, s.byName)
    requires ClassifyPath(cfg, doc, s, e).Ok?
    ensures Sound(cfg, doc, ClassifyPath(cfg, doc, s, e).value.byName)
  {
    if Truthy(e.value) {
      var item := Entries(e.value);
      assert e == Entry(e.key, e.value);
      OpsUpToSound(cfg, doc, e.key, e.value, |item|, Acc(s, []));
      var acc := OpsUpTo(cfg, doc, e.key, item, |item|, Acc(s, [])).value;
      CopyToServicesSound(cfg, doc, acc.svcs.byName, acc.pathServices, |acc.pathServices|, e.key, item);
    }
  }

  lemma {:induction false} ClassifyUpToSound(cfg: Options, doc: Json, n: nat)
    requires n <= |PathsOf(doc)|
    requires ClassifyUpTo(cfg, doc, PathsOf(doc), n).Ok?
    ensures Sound(cfg, doc, ClassifyUpTo(cfg, doc, PathsOf(doc), n).value.byName)
    decreases n
  {
    if n > 0 {
      ClassifyUpToSound(cfg, doc, n - 1);
      var s := ClassifyUpTo(cfg, doc, PathsOf(doc), n - 1).value;
      ClassifyPathSound(cfg, doc, s, PathsOf(doc)[n - 1]);
    }
  }

  /** After the first pass every stored operation is a source operation that
      is not excluded, whose computed or overridden service name is not
      `skip` and is the service holding it. */
  lemma ClassifySound(cfg: Options, doc: Json)
    requires Classify(cfg, doc).Ok?
    ensures Sound(cfg, doc, Classify(cfg, doc).value.byName)
  {
    ClassifyUpToSound(cfg, doc, |PathsOf(doc)|);
  }

  // ---------------------------------------------------------------------
  // Completeness of the first pass
  // ---------------------------------------------------------------------

  /** Service `s` holds `o` under verb `v` of its path `pathKey`. */
  predicate Holds(byName: map<string, Service>, s: string, pathKey: string, v: string, o: Json)
  {
    s in byName && Lookup(ItemOf(byName[s].paths, pathKey), v) == Some(o)
  }

  /** Storing under another path or another verb keeps what is held. */
  lemma StoreKeeps(m: map<string, Service>, service: string, pathKey: string, v0: string, o0: Json,
                   s: string, k: string, v: string, o: Json)
    requires service in m && Holds(m, s, k, v, o) && (k != pathKey || v != v0)
    ensures Holds(Store(m, service, pathKey, v0, o0), s, k, v, o)
  {
    var r := Store(m, service, pathKey, v0, o0);
    if s == service && k != pathKey {
      assert ItemOf(r[s].paths, k) == ItemOf(m[s].paths, k);
    } else if s == service {
      assert ItemOf(r[s].paths, k) == Put(ItemOf(m[s].paths, k), v0, o0);
    }
  }

  lemma PlaceOpKeeps(cfg: Options, doc: Json, pathKey: string, acc: Acc, e: Entry, s: string, k: string, v: string, o: Json)
    requires Holds(acc.svcs.byName, s, k, v, o) && (k != pathKey || e.key != v)
    requires PlaceOp(cfg, doc, pathKey, acc, e).Ok?
    ensures Holds(PlaceOp(cfg, doc, pathKey, acc, e).value.svcs.byName, s, k, v, o)
  {
    if IsOp(e.key) && Truthy(e.value) && Destination(cfg, doc, pathKey, e.value).value.Some? {
      var (service, desc) := Destination(cfg, doc, pathKey, e.value).value.value;
      var m := WithService(acc.svcs.byName, service, desc, doc);
      StoreKeeps(m, service, pathKey, e.key, GithubResource(cfg.provider, e.value).value, s, k, v, o);
    }
  }

  /** A kept operation is stored, with its GitHub resource name, under its
      verb in its service. */
  lemma PlaceOpStores(cfg: Options, doc: Json, pathKey: string, acc: Acc, e: Entry, s: string, d: Json)
    requires IsOp(e.key) && Truthy(e.value) && Destination(cfg, doc, pathKey, e.value) == Ok(Some((s, d)))
    requires PlaceOp(cfg, doc, pathKey, acc, e).Ok?
    ensures GithubResource(cfg.provider, e.value).Ok?
    ensures Holds(PlaceOp(cfg, doc, pathKey, acc, e).value.svcs.byName, s, pathKey, e.key,
                  GithubResource(cfg.provider, e.value).value)
  {
    var op := GithubResource(cfg.provider, e.value).value;
    var m := WithService(acc.svcs.byName, s, d, doc);
    assert ItemOf(Store(m, s, pathKey, e.key, op)[s].paths, pathKey) == Put(ItemOf(m[s].paths, pathKey), e.key, op);
  }

  lemma {:induction false} OpsUpToOkBefore(cfg: Options, doc: Json, pathKey: string, item: seq<Entry>, m: nat, n: nat, acc: Acc)
    requires m <= n <= |item|
    requires OpsUpTo(cfg, doc, pathKey, item, n, acc).Ok?
    ensures OpsUpTo(cfg, doc, pathKey, item, m, acc).Ok?
    decreases n
  {
    if m < n {
      OpsUpToOkBefore(cfg, doc, pathKey, item, m, n - 1, acc);
    }
  }

  lemma OpsUpToLast(cfg: Options, doc: Json, pathKey: string, item: seq<Entry>, n: nat, acc: Acc)
    requires 0 < n <= |item| && OpsUpTo(cfg, doc, pathKey, item, n, acc).Ok?
    ensures OpsUpTo(cfg, doc, pathKey, item, n - 1, acc).Ok?
    ensures OpsUpTo(cfg, doc, pathKey, item, n, acc)
            == PlaceOp(cfg, doc, pathKey, OpsUpTo(cfg, doc, pathKey, item, n - 1, acc).value, item[n - 1])
  {
  }

  /** Entries `m` to `n` of a path item that do not reuse the verb keep
      what is held. */
  lemma {:induction false} OpsUpToKeeps(cfg: Options, doc: Json, pathKey: string, item: seq<Entry>, m: nat, n: nat, acc: Acc,
                                        s: string, k: string, v: string, o: Json)
    requires m <= n <= |item|
    requires OpsUpTo(cfg, doc, pathKey, item, n, acc).Ok?
    requires forall j :: m <= j < n ==> k != pathKey || item[j].key != v
    requires OpsUpTo(cfg, doc, pathKey, item, m, acc).Ok?
    requires Holds(OpsUpTo(cfg, doc, pathKey, item, m, acc).value.svcs.byName, s, k, v, o)
    ensures Holds(OpsUpTo(cfg, doc, pathKey, item, n, acc).value.svcs.byName, s, k, v, o)
    decreases n
  {
    if m < n {
      OpsUpToLast(cfg, doc, pathKey, item, n, acc);
      OpsUpToKeeps(cfg, doc, pathKey, item, m, n - 1, acc, s, k, v, o);
      PlaceOpKeeps(cfg, doc, pathKey, OpsUpTo(cfg, doc, pathKey, item, n - 1, acc).value, item[n - 1], s, k, v, o);
    }
  }

  lemma {:induction false} CopyToServicesKeeps(services: map<string, Service>, names: seq<string>, n: nat, pathKey: string,
                                               src: seq<Entry>, s: string, k: string, v: string, o: Json)
    requires n <= |names| && IsOp(v) && Holds(services, s, k, v, o)
    ensures Holds(CopyToServices(services, names, n, pathKey, src), s, k, v, o)
    decreases n
  {
    if n > 0 {
      CopyToServicesKeeps(services, names, n - 1, pathKey, src, s, k, v, o);
      CopyIntoKeepsOps(CopyToServices(services, names, n - 1, pathKey, src), names[n - 1], pathKey, src);
    }
  }

  /** Another path of the source keeps what is held. */
  lemma ClassifyPathKeeps(cfg: Options, doc: Json, sv: Services, e: Entry, s: string, k: string, v: string, o: Json)
    requires IsOp(v) && Holds(sv.byName, s, k, v, o) && k != e.key
    requires ClassifyPath(cfg, doc, sv, e).Ok?
    ensures Holds(ClassifyPath(cfg, doc, sv, e).value.byName, s, k, v, o)
  {
    if Truthy(e.value) {
      var item := Entries(e.value);
      OpsUpToKeeps(cfg, doc, e.key, item, 0, |item|, Acc(sv, []), s, k, v, o);
      var acc := OpsUpTo(cfg, doc, e.key, item, |item|, Acc(sv, [])).value;
      CopyToServicesKeeps(acc.svcs.byName, acc.pathServices, |acc.pathServices|, e.key, item, s, k, v, o);
    }
  }

  /** Within a path item with distinct keys, a kept operation is stored in
      its service once the whole item is placed. */
  lemma OpsUpToStores(cfg: Options, doc: Json, pathKey: string, item: seq<Entry>, j: nat, start: Acc, s: string, d: Json)
    requires UniqueKeys(item) && j < |item|
    requires IsOp(item[j].key) && Truthy(item[j].value)
    requires Destination(cfg, doc, pathKey, item[j].value) == Ok(Some((s, d)))
    requires OpsUpTo(cfg, doc, pathKey, item, |item|, start).Ok?
    ensures GithubResource(cfg.provider, item[j].value).Ok?
    ensures Holds(OpsUpTo(cfg, doc, pathKey, item, |item|, start).value.svcs.byName, s, pathKey, item[j].key,
                  GithubResource(cfg.provider, item[j].value).value)
  {
    var v := item[j].key;
    OpsUpToOkBefore(cfg, doc, pathKey, item, j + 1, |item|, start);
    OpsUpToLast(cfg, doc, pathKey, item, j + 1, start);
    var a := OpsUpTo(cfg, doc, pathKey, item, j, start).value;
    assert PlaceOp(cfg, doc, pathKey, a, item[j]).Ok?;
    PlaceOpStores(cfg, doc, pathKey, a, item[j], s, d);
    var o := GithubResource(cfg.provider, item[j].value).value;
    LaterKeysDiffer(item, j);
    OpsUpToKeeps(cfg, doc, pathKey, item, j + 1, |item|, start, s, pathKey, v, o);
  }

  /** Within its own path, a kept operation is stored in its service. */
  lemma ClassifyPathStores(cfg: Options, doc: Json, sv: Services, e: Entry, j: nat, s: string, d: Json)
    requires Truthy(e.value) && UniqueKeys(Entries(e.value)) && j < |Entries(e.value)|
    requires IsOp(Entries(e.value)[j].key) && Truthy(Entries(e.value)[j].value)
    requires Destination(cfg, doc, e.key, Entries(e.value)[j].value) == Ok(Some((s, d)))
    requires ClassifyPath(cfg, doc, sv, e).Ok?
    ensures GithubResource(cfg.provider, Entries(e.value)[j].value).Ok?
    ensures Holds(ClassifyPath(cfg, doc, sv, e).value.byName, s, e.key, Entries(e.value)[j].key,
                  GithubResource(cfg.provider, Entries(e.value)[j].value).value)
  {
    var item := Entries(e.value);
    var start := Acc(sv, []);
    OpsUpToStores(cfg, doc, e.key, item, j, start, s, d);
    var o := GithubResource(cfg.provider, item[j].value).value;
    var acc := OpsUpTo(cfg, doc, e.key, item, |item|, start).value;
    CopyToServicesKeeps(acc.svcs.byName, acc.pathServices, |acc.pathServices|, e.key, item, s, e.key, item[j].key, o);
  }

  lemma {:induction false} ClassifyUpToOkBefore(cfg: Options, doc: Json, paths: seq<Entry>, m: nat, n: nat)
    requires m <= n <= |paths|
    requires ClassifyUpTo(cfg, doc, paths, n).Ok?
    ensures ClassifyUpTo(cfg, doc, paths, m).Ok?
    decreases n
  {
    if m < n {
      ClassifyUpToOkBefore(cfg, doc, paths, m, n - 1);
    }
  }

  /** Paths `m` to `n` with another key keep what is held. */
  lemma {:induction false} ClassifyUpToKeeps(cfg: Options, doc: Json, paths: seq<Entry>, m: nat, n: nat,
                                             s: string, k: string, v: string, o: Json)
    requires m <= n <= |paths| && IsOp(v)
    requires ClassifyUpTo(cfg, doc, paths, n).Ok?
    requires forall j :: m <= j < n ==> paths[j].key != k
    requires ClassifyUpTo(cfg, doc, paths, m).Ok?
    requires Holds(ClassifyUpTo(cfg, doc, paths, m).value.byName, s, k, v, o)
    ensures Holds(ClassifyUpTo(cfg, doc, paths, n).value.byName, s, k, v, o)
    decreases n
  {
    if m < n {
      ClassifyUpToOkBefore(cfg, doc, paths, n - 1, n);
      ClassifyUpToKeeps(cfg, doc, paths, m, n - 1, s, k, v, o);
      ClassifyPathKeeps(cfg, doc, ClassifyUpTo(cfg, doc, paths, n - 1).value, paths[n - 1], s, k, v, o);
    }
  }

  /** An entry's key does not come back later in entries with distinct keys. */
  lemma LaterKeysDiffer(es: seq<Entry>, i: nat)
    requires UniqueKeys(es) && i < |es|
    ensures forall q :: i < q < |es| ==> es[q].key != es[i].key
  {
    forall q | i < q < |es|
      ensures es[q].key != es[i].key
    {
      assert Keys(es)[q] == es[q].key && Keys(es)[i] == es[i].key;
    }
  }

  /** The operation at index `j` of the path at index `i`, when kept, is in
      its service after the first pass over all paths. */
  lemma ClassifyUpToStores(cfg: Options, doc: Json, paths: seq<Entry>, i: nat, j: nat, s: string, d: Json)
    requires UniqueKeys(paths) && i < |paths| && Truthy(paths[i].value)
    requires UniqueKeys(Entries(paths[i].value)) && j < |Entries(paths[i].value)|
    requires IsOp(Entries(paths[i].value)[j].key) && Truthy(Entries(paths[i].value)[j].value)
    requires Destination(cfg, doc, paths[i].key, Entries(paths[i].value)[j].value) == Ok(Some((s, d)))
    requires ClassifyUpTo(cfg, doc, paths, |paths|).Ok?
    ensures GithubResource(cfg.provider, Entries(paths[i].value)[j].value).Ok?
    ensures Holds(ClassifyUpTo(cfg, doc, paths, |paths|).value.byName, s, paths[i].key, Entries(paths[i].value)[j].key,
                  GithubResource(cfg.provider, Entries(paths[i].value)[j].value).value)
  {
    var e := paths[i];
    ClassifyUpToOkBefore(cfg, doc, paths, i + 1, |paths|);
    ClassifyUpToOkBefore(cfg, doc, paths, i, i + 1);
    ClassifyPathStores(cfg, doc, ClassifyUpTo(cfg, doc, paths, i).value, e, j, s, d);
    LaterKeysDiffer(paths, i);
    ClassifyUpToKeeps(cfg, doc, paths, i + 1, |paths|, s, e.key, Entries(e.value)[j].key,
                      GithubResource(cfg.provider, Entries(e.value)[j].value).value);
  }

  /** The converse of `ClassifySound`: in a source whose objects have
      distinct keys, as parsed JSON and YAML objects do, every operation
      sent to a service is stored in it under the same path and verb, with
      the GitHub resource name added where it applies. */
  lemma ClassifyComplete(cfg: Options, doc: Json, pathKey: string, p: Json, v: string, op: Json, s: string, d: Json)
    requires UniqueKeys(PathsOf(doc)) && UniqueKeys(Entries(p))
    requires Entry(pathKey, p) in PathsOf(doc) && Truthy(p) && Entry(v, op) in Entries(p) && IsOp(v) && Truthy(op)
    requires Destination(cfg, doc, pathKey, op) == Ok(Some((s, d)))
    requires Classify(cfg, doc).Ok?
    ensures s in Classify(cfg, doc).value.byName && GithubResource(cfg.provider, op).Ok?
    ensures Lookup(ItemOf(Classify(cfg, doc).value.byName[s].paths, pathKey), v) == Some(GithubResource(cfg.provider, op).value)
  {
    var paths := PathsOf(doc);
    var i :| 0 <= i < |paths| && paths[i] == Entry(pathKey, p);
    var j :| 0 <= j < |Entries(p)| && Entries(p)[j] == Entry(v, op);
    ClassifyUpToStores(cfg, doc, paths, i, j, s, d);
  }

  // ---------------------------------------------------------------------
  // Key order of the first pass
  // ---------------------------------------------------------------------

  lemma PlacedWellFormed(s: Services, service: string, desc: Json, doc: Json, pathKey: string, v: string, op: Json)
    requires WellFormed(s)
    ensures WellFormed(Placed(Acc(s, []), service, desc, doc, pathKey, v, op).svcs)
  {
    var m0 := WithService(s.byName, service, desc, doc);
    var m := Store(m0, service, pathKey, v, op);
    var order := if service in s.byName then s.order else s.order + [service];
    assert Placed(Acc(s, []), service, desc, doc, pathKey, v, op).svcs == Services(m, order);
    forall name | name in m
      ensures AllObj(m[name].components)
    {
      assert m[name].components == m0[name].components;
    }
    if service !in s.byName {
      AppendNew(s.order, service);
    }
    assert Ordered(Services(m, order));
  }

  lemma AppendNew(xs: seq<string>, x: string)
    requires NoDup(xs) && x !in xs
    ensures NoDup(xs + [x]) && Elems(xs + [x]) == Elems(xs) + {x}
  {
  }

  lemma PlaceOpWellFormed(cfg: Options, doc: Json, pathKey: string, acc: Acc, e: Entry)
    requires WellFormed(acc.svcs)
    requires PlaceOp(cfg, doc, pathKey, acc, e).Ok?
    ensures WellFormed(PlaceOp(cfg, doc, pathKey, acc, e).value.svcs)
  {
    if IsOp(e.key) && Truthy(e.value) && Destination(cfg, doc, pathKey, e.value).value.Some? {
      var (service, desc) := Destination(cfg, doc, pathKey, e.value).value.value;
      var op := GithubResource(cfg.provider, e.value).value;
      PlacedWellFormed(acc.svcs, service, desc, doc, pathKey, e.key, op);
      assert PlaceOp(cfg, doc, pathKey, acc, e).value.svcs == Placed(Acc(acc.svcs, []), service, desc, doc, pathKey, e.key, op).svcs;
    }
  }

  lemma {:induction false} OpsUpToWellFormed(cfg: Options, doc: Json, pathKey: string, item: seq<Entry>, n: nat, acc: Acc)
    requires n <= |item| && WellFormed(acc.svcs)
    requires OpsUpTo(cfg, doc, pathKey, item, n, acc).Ok?
    ensures WellFormed(OpsUpTo(cfg, doc, pathKey, item, n, acc).value.svcs)
    decreases n
  {
    if n > 0 {
      OpsUpToWellFormed(cfg, doc, pathKey, item, n - 1, acc);
      PlaceOpWellFormed(cfg, doc, pathKey, OpsUpTo(cfg, doc, pathKey, item, n - 1, acc).value, item[n - 1]);
    }
  }

  /** The path-level copy changes no service's name and no components. */
  lemma {:induction false} CopyToServicesKeys(services: map<string, Service>, names: seq<string>, n: nat, pathKey: string,
                                              src: seq<Entry>)
    requires n <= |names|
    ensures CopyToServices(services, names, n, pathKey, src).Keys == services.Keys
    ensures forall name :: name in services ==>
              CopyToServices(services, names, n, pathKey, src)[name].components == services[name].components
    decreases n
  {
    if n > 0 {
      CopyToServicesKeys(services, names, n - 1, pathKey, src);
    }
  }

  lemma {:induction false} ClassifyUpToWellFormed(cfg: Options, doc: Json, paths: seq<Entry>, n: nat)
    requires n <= |paths|
    requires ClassifyUpTo(cfg, doc, paths, n).Ok?
    ensures WellFormed(ClassifyUpTo(cfg, doc, paths, n).value)
    decreases n
  {
    if n > 0 {
      ClassifyUpToWellFormed(cfg, doc, paths, n - 1);
      var s := ClassifyUpTo(cfg, doc, paths, n - 1).value;
      var e := paths[n - 1];
      if Truthy(e.value) {
        var item := Entries(e.value);
        OpsUpToWellFormed(cfg, doc, e.key, item, |item|, Acc(s, []));
        var acc := OpsUpTo(cfg, doc, e.key, item, |item|, Acc(s, [])).value;
        CopyToServicesKeys(acc.svcs.byName, acc.pathServices, |acc.pathServices|, e.key, item);
      }
    }
  }

  // ---------------------------------------------------------------------
  // Passes two to five: one service at a time, in key order
  // ---------------------------------------------------------------------

  /** `getAllRefs` of every operation among the first `n` entries of a path
      item, added to `acc`. */
  function OpRefsUpTo(item: seq<Entry>, n: nat, acc: seq<string>): seq<string>
    requires n <= |item|
  {
    if n == 0 then acc
    else
      var prev := OpRefsUpTo(item, n - 1, acc);
      if IsOp(item[n - 1].key) then SetAddAll(prev, RefsOf(item[n - 1].value)) else prev
  }

  /** One path of a service in the second pass: its path-level refs, then
      the refs of its operations. */
  function ItemRefs(acc: seq<string>, e: Entry): Result<seq<string>>
  {
    var item := Entries(e.value);
    var pathRefs :- PathLevelRefs(item);
    Ok(OpRefsUpTo(item, |item|, SetAddAll(acc, pathRefs)))
  }

  /** The `allRefs` set after the first `n` paths of a service. */
  function ServiceRefsUpTo(paths: seq<Entry>, n: nat): Result<seq<string>>
    requires n <= |paths|
  {
    if n == 0 then Ok([])
    else match ServiceRefsUpTo(paths, n - 1)
      case Err(e) => Err(e)
      case Ok(acc) => ItemRefs(acc, paths[n - 1])
  }

  /** The second pass for one service: collect its refs, then resolve them
      against the source components. */
  function CollectFor(svc: Service, src: Json): Result<Service>
  {
    var refs :- ServiceRefsUpTo(svc.paths, |svc.paths|);
    Ok(svc.(components := Resolve(refs, svc.components, {}, src).0))
  }

  /** The third pass for one service. */
  function RenameFor(svc: Service): Result<Service>
  {
    var paths :- RenamePaths(svc.paths);
    Ok(svc.(paths := paths))
  }

  /** The fourth pass for one service. */
  function TypesFor(svc: Service): Service
  {
    svc.(paths := Entries(WithObjectTypes(Obj(svc.paths))), components := Entries(WithObjectTypes(Obj(svc.components))))
  }

  /** The fifth pass for one service. */
  function PruneFor(svc: Service): Result<Service>
  {
    var comps :- Prune(svc.components);
    Ok(svc.(components := comps))
  }

  datatype Pass = Collect(src: Json) | RenameParams | AddTypes | Cleanup

  function Apply(p: Pass, svc: Service): Result<Service>
  {
    match p
    case Collect(src) => CollectFor(svc, src)
    case RenameParams => RenameFor(svc)
    case AddTypes => Ok(TypesFor(svc))
    case Cleanup => PruneFor(svc)
  }

  /** A pass as a call on one service's document. */
  function PassStep(p: Pass): Service -> Result<Service>
  {
    svc => Apply(p, svc)
  }

  function RunPass(s: Services, p: Pass): Result<Services>
  {
    var m :- UpdateEach(PassStep(p), s.byName, s.order, |s.order|);
    Ok(s.(byName := m))
  }

  /** Once a service throws, the pass ends with that error. */
  /** A pass throws exactly when some service's step throws; otherwise every
      service's new document is that step's result. */
  lemma PassExactly(s: Services, p: Pass)
    requires Ordered(s)
    ensures RunPass(s, p).Err? <==> exists name :: name in s.byName && Apply(p, s.byName[name]).Err?
    ensures RunPass(s, p).Ok? ==> Ordered(RunPass(s, p).value) && RunPass(s, p).value.order == s.order
    ensures RunPass(s, p).Ok? ==> forall name :: name in s.byName ==> Apply(p, s.byName[name]) == Ok(RunPass(s, p).value.byName[name])
  {
    var f := PassStep(p);
    UpdateEachFails(f, s.byName, s.order, |s.order|);
    UpdateEachOk(f, s.byName, s.order, |s.order|);
    forall name | name in s.byName
      ensures exists i :: 0 <= i < |s.order| && s.order[i] == name
    {
      assert name in Elems(s.order);
    }
    if RunPass(s, p).Err? {
      var i :| 0 <= i < |s.order| && FailsAt(f, s.byName, s.order, i);
      assert Apply(p, s.byName[s.order[i]]).Err?;
    } else {
      forall name | name in s.byName
        ensures Apply(p, s.byName[name]).Ok?
      {
        var i :| 0 <= i < |s.order| && s.order[i] == name;
        assert !FailsAt(f, s.byName, s.order, i);
      }
    }
  }

  // ---------------------------------------------------------------------
  // The whole split
  // ---------------------------------------------------------------------

  /** The passes that can throw on malformed input: reading `paths` of the
      document, the first pass, collecting refs, renaming path parameters. */
  function Collected(cfg: Options, doc: Json): Result<Services>
  {
    if doc.Null? then Err("TypeError: cannot read properties of null (reading 'paths')")
    else
      var s1 :- Classify(cfg, doc);
      var s2 :- RunPass(s1, Collect(SrcComponents(doc)));
      RunPass(s2, RenameParams)
  }

  /** The services after all five passes. */
  function SplitServices(cfg: Options, doc: Json): Result<Services>
  {
    var s3 :- Collected(cfg, doc);
    var s4 :- RunPass(s3, AddTypes);
    RunPass(s4, Cleanup)
  }

  /** The document written for each service, by service name. */
  function SplitDoc(cfg: Options, doc: Json): Result<map<string, Json>>
  {
    var s :- SplitServices(cfg, doc);
    Ok(map name | name in s.byName :: ServiceJson(s.byName[name]))
  }

  // ---------------------------------------------------------------------
  // The last two passes never throw
  // ---------------------------------------------------------------------

  lemma StepObj(st: Round, r: string, src: Json)
    requires AllObj(st.comps)
    ensures AllObj(Step(st, r, src).comps)
  {
    if r !in st.processed && Target(r).Some? {
      var (t, n) := Target(r).value;
      var comps := if TruthyOpt(Lookup(st.comps, t)) then st.comps else Put(st.comps, t, Obj([]));
      PutEntries(st.comps, t, Obj([]));
      assert AllObj(comps);
      if !(Has(comps, t, n) || !TruthyOpt(Source(src, t, n))) {
        PutEntries(comps, t, Obj(Put(Bucket(comps, t), n, Source(src, t, n).value)));
      }
    }
  }

  lemma {:induction false} RoundObj(refs: seq<string>, st: Round, src: Json)
    requires AllObj(st.comps)
    ensures AllObj(RoundOf(refs, st, src).comps)
    decreases |refs|
  {
    if refs != [] {
      RoundObj(refs[..|refs| - 1], st, src);
      StepObj(RoundOf(refs[..|refs| - 1], st, src), refs[|refs| - 1], src);
    }
  }

  /** resolveReferences only ever stores objects as buckets. */
  lemma {:induction false} ResolveObj(refs: seq<string>, comps: seq<Entry>, processed: set<string>, src: Json)
    requires AllObj(comps)
    ensures AllObj(Resolve(refs, comps, processed, src).0)
    decreases Measure(refs, processed, src)
  {
    var st := RoundOf(refs, Round(comps, processed, []), src);
    RoundObj(refs, Round(comps, processed, []), src);
    if |st.found| > 0 {
      RoundDecreases(refs, comps, processed, src);
      ResolveObj(st.found, st.comps, st.processed, src);
    }
  }

  lemma CollectPassWellFormed(s: Services, src: Json)
    requires WellFormed(s) && RunPass(s, Collect(src)).Ok?
    ensures WellFormed(RunPass(s, Collect(src)).value)
  {
    var s2 := RunPass(s, Collect(src)).value;
    PassExactly(s, Collect(src));
    forall name | name in s2.byName
      ensures AllObj(s2.byName[name].components)
    {
      var svc := s.byName[name];
      ResolveObj(ServiceRefsUpTo(svc.paths, |svc.paths|).value, svc.components, {}, src);
    }
  }

  lemma RenamePassWellFormed(s: Services)
    requires WellFormed(s) && RunPass(s, RenameParams).Ok?
    ensures WellFormed(RunPass(s, RenameParams).value)
  {
    PassExactly(s, RenameParams);
  }

  /** The passes that can throw keep the services well formed. */
  lemma CollectedWellFormed(cfg: Options, doc: Json)
    requires Collected(cfg, doc).Ok?
    ensures WellFormed(Collected(cfg, doc).value)
  {
    var src := SrcComponents(doc);
    ClassifyUpToWellFormed(cfg, doc, PathsOf(doc), |PathsOf(doc)|);
    var s1 := Classify(cfg, doc).value;
    CollectPassWellFormed(s1, src);
    RenamePassWellFormed(RunPass(s1, Collect(src)).value);
  }

  /** After addMissingObjectTypes no bucket of object buckets is null. */
  lemma TypesNoNull(comps: seq<Entry>)
    requires AllObj(comps)
    ensures forall e :: e in Entries(WithObjectTypes(Obj(comps))) ==> !e.value.Null?
  {
    var walked := seq(|comps|, i requires 0 <= i < |comps| => Entry(comps[i].key, WithObjectTypes(comps[i].value)));
    assert WithObjectTypes(Obj(comps)) == Obj(if NeedsType(comps) then Put(walked, "type", Str("object")) else walked);
    PutEntries(walked, "type", Str("object"));
    forall e | e in walked
      ensures !e.value.Null?
    {
      var i :| 0 <= i < |walked| && walked[i] == e;
      assert comps[i] in comps;
    }
  }

  /** The paths and components of a service after addMissingObjectTypes
      have every object with truthy `properties` typed. */
  lemma TypesForTyped(svc: Service)
    ensures Typed(Obj(TypesFor(svc).paths)) && Typed(Obj(TypesFor(svc).components))
  {
    WithObjectTypesTyped(Obj(svc.paths));
    WithObjectTypesTyped(Obj(svc.components));
  }

  /** No bucket is null after the fourth pass. */
  predicate NoNullBuckets(s: Services)
  {
    forall name :: name in s.byName ==> forall e :: e in s.byName[name].components ==> !e.value.Null?
  }

  lemma AddTypesPass(s: Services)
    requires WellFormed(s)
    ensures RunPass(s, AddTypes).Ok?
    ensures Ordered(RunPass(s, AddTypes).value) && NoNullBuckets(RunPass(s, AddTypes).value)
    ensures forall name :: name in RunPass(s, AddTypes).value.byName ==> Typed(Obj(RunPass(s, AddTypes).value.byName[name].paths))
  {
    PassExactly(s, AddTypes);
    var s4 := RunPass(s, AddTypes).value;
    forall name | name in s4.byName
      ensures forall e :: e in s4.byName[name].components ==> !e.value.Null?
      ensures Typed(Obj(s4.byName[name].paths))
    {
      TypesNoNull(s.byName[name].components);
      TypesForTyped(s.byName[name]);
    }
  }

  lemma CleanupPass(s: Services)
    requires Ordered(s) && NoNullBuckets(s)
    ensures RunPass(s, Cleanup).Ok?
    ensures forall name :: name in s.byName ==>
              RunPass(s, Cleanup).value.byName[name].paths == s.byName[name].paths
              && forall e :: e in RunPass(s, Cleanup).value.byName[name].components ==> NoKeys(e.value) == Ok(false)
  {
    PassExactly(s, Cleanup);
    forall name | name in s.byName
      ensures PruneFor(s.byName[name]).Ok?
    {
      var comps := s.byName[name].components;
      assert forall i :: 0 <= i < |comps| ==> comps[i] in comps;
    }
  }

  /** Once the first three passes succeed, adding types and removing empty
      buckets cannot throw; afterwards every bucket has keys and every path
      object with truthy `properties` has a truthy `type`. */
  lemma LastPassesTotal(cfg: Options, doc: Json)
    requires Collected(cfg, doc).Ok?
    ensures SplitServices(cfg, doc).Ok?
    ensures var s := SplitServices(cfg, doc).value;
            forall name :: name in s.byName ==>
              Typed(Obj(s.byName[name].paths))
              && forall e :: e in s.byName[name].components ==> NoKeys(e.value) == Ok(false)
  {
    var s3 := Collected(cfg, doc).value;
    CollectedWellFormed(cfg, doc);
    AddTypesPass(s3);
    var s4 := RunPass(s3, AddTypes).value;
    CleanupPass(s4);
    assert SplitServices(cfg, doc) == RunPass(s4, Cleanup);
  }

  // ---------------------------------------------------------------------
  // What the second pass collects
  // ---------------------------------------------------------------------

  /** `r` is a ref of the path-level entries or of an operation of a path
      item. */
  ghost predicate ItemRef(item: seq<Entry>, r: string)
  {
    (PathLevelRefs(item).Ok? && r in PathLevelRefs(item).value)
    || exists i :: 0 <= i < |item| && IsOp(item[i].key) && r in RefsOf(item[i].value)
  }

  lemma {:induction false} OpRefsMembers(item: seq<Entry>, n: nat, acc: seq<string>, r: string)
    requires n <= |item|
    ensures r in OpRefsUpTo(item, n, acc) <==>
            r in acc || exists i :: 0 <= i < n && IsOp(item[i].key) && r in RefsOf(item[i].value)
    decreases n
  {
    if n > 0 {
      OpRefsMembers(item, n - 1, acc, r);
    }
  }

  lemma ItemRefsMembers(acc: seq<string>, e: Entry, r: string)
    requires ItemRefs(acc, e).Ok?
    ensures r in ItemRefs(acc, e).value <==> r in acc || ItemRef(Entries(e.value), r)
  {
    var item := Entries(e.value);
    OpRefsMembers(item, |item|, SetAddAll(acc, PathLevelRefs(item).value), r);
  }

  /** The refs collected for a service are exactly the path-level and
      operation refs of its paths. */
  lemma {:induction false} ServiceRefsExactly(paths: seq<Entry>, n: nat, r: string)
    requires n <= |paths| && ServiceRefsUpTo(paths, n).Ok?
    ensures r in ServiceRefsUpTo(paths, n).value <==> exists k :: 0 <= k < n && ItemRef(Entries(paths[k].value), r)
    decreases n
  {
    if n > 0 {
      ServiceRefsExactly(paths, n - 1, r);
      ItemRefsMembers(ServiceRefsUpTo(paths, n - 1).value, paths[n - 1], r);
    }
  }

  /** After the second pass, every ref of a service's operations and
      path-level entries that names a component of the source is present in
      the service, and so is every ref inside a component it added. */
  lemma CollectCovers(svc: Service, src: Json)
    requires CollectFor(svc, src).Ok?
    ensures var comps := CollectFor(svc, src).value.components;
            (forall k, r :: 0 <= k < |svc.paths| && ItemRef(Entries(svc.paths[k].value), r) ==> Resolved(src, comps, r))
            && (forall t, n :: Comp(comps, t, n).Some? && Comp(comps, t, n) != Comp(svc.components, t, n) ==>
                  forall z :: z in RefsOf(Comp(comps, t, n).value) ==> Resolved(src, comps, z))
  {
    var refs := ServiceRefsUpTo(svc.paths, |svc.paths|).value;
    ResolveClosure(refs, svc.components, src);
    forall k, r | 0 <= k < |svc.paths| && ItemRef(Entries(svc.paths[k].value), r)
      ensures r in refs
    {
      ServiceRefsExactly(svc.paths, |svc.paths|, r);
    }
  }

  // ---------------------------------------------------------------------
  // The passes in the source's form
  // ---------------------------------------------------------------------

  lemma {:induction false} OpsErrStays(cfg: Options, doc: Json, pathKey: string, item: seq<Entry>, acc: Acc, i: nat, n: nat)
    requires i <= n <= |item|
    requires OpsUpTo(cfg, doc, pathKey, item, i, acc).Err?
    ensures OpsUpTo(cfg, doc, pathKey, item, n, acc) == OpsUpTo(cfg, doc, pathKey, item, i, acc)
    decreases n
  {
    if n > i {
      OpsErrStays(cfg, doc, pathKey, item, acc, i, n - 1);
    }
  }

  lemma {:induction false} ClassifyErrStays(cfg: Options, doc: Json, paths: seq<Entry>, i: nat, n: nat)
    requires i <= n <= |paths|
    requires ClassifyUpTo(cfg, doc, paths, i).Err?
    ensures ClassifyUpTo(cfg, doc, paths, n) == ClassifyUpTo(cfg, doc, paths, i)
    decreases n
  {
    if n > i {
      ClassifyErrStays(cfg, doc, paths, i, n - 1);
    }
  }

  lemma {:induction false} ServiceRefsErrStays(paths: seq<Entry>, i: nat, n: nat)
    requires i <= n <= |paths|
    requires ServiceRefsUpTo(paths, i).Err?
    ensures ServiceRefsUpTo(paths, n) == ServiceRefsUpTo(paths, i)
    decreases n
  {
    if n > i {
      ServiceRefsErrStays(paths, i, n - 1);
    }
  }

  /** The copy of a path's non-operation entries into one service's path
      item. */
  method CopyPathLevel(item: seq<Entry>, src: seq<Entry>) returns (r: seq<Entry>)
    ensures r == CopyNonOps(item, src, |src|)
  {
    r := item;
    var k := 0;
    while k < |src|
      invariant 0 <= k <= |src|
      invariant r == CopyNonOps(item, src, k)
    {
      if !IsOp(src[k].key) {
        r := Put(r, src[k].key, src[k].value);
      }
      k := k + 1;
    }
  }

  /** The refs of one path: its path-level refs, then those of each of its
      operations. */
  method CollectItemRefs(acc: seq<string>, e: Entry) returns (r: Result<seq<string>>)
    ensures r == ItemRefs(acc, e)
  {
    var item := Entries(e.value);
    var pathRefs := GetPathLevelRefs(item);
    if pathRefs.Err? {
      return Err(pathRefs.error);
    }
    var allRefs := AddEach(acc, pathRefs.value);
    var j := 0;
    ghost var start := allRefs;
    while j < |item|
      invariant 0 <= j <= |item|
      invariant allRefs == OpRefsUpTo(item, j, start)
    {
      if IsOp(item[j].key) {
        var opRefs := GetAllRefs(item[j].value);
        allRefs := AddEach(allRefs, opRefs);
      }
      j := j + 1;
    }
    r := Ok(allRefs);
  }

  /** The loop over the paths of one service, collecting `allRefs`. */
  method CollectServiceRefs(paths: seq<Entry>) returns (r: Result<seq<string>>)
    ensures r == ServiceRefsUpTo(paths, |paths|)
  {
    var allRefs: seq<string> := [];
    for i := 0 to |paths|
      invariant ServiceRefsUpTo(paths, i) == Ok(allRefs)
    {
      var next := CollectItemRefs(allRefs, paths[i]);
      ServiceRefsStep(paths, i, allRefs);
      if next.Err? {
        ServiceRefsErrStays(paths, i + 1, |paths|);
        return next;
      }
      allRefs := next.value;
    }
    r := Ok(allRefs);
  }

  lemma ServiceRefsStep(paths: seq<Entry>, i: nat, acc: seq<string>)
    requires i < |paths| && ServiceRefsUpTo(paths, i) == Ok(acc)
    ensures ServiceRefsUpTo(paths, i + 1) == ItemRefs(acc, paths[i])
  {
  }

  /** The second pass's loops for one service: the refs of every path, then
      resolveReferences. */
  method CollectService(svc: Service, src: Json) returns (r: Result<Service>)
    ensures r == CollectFor(svc, src)
  {
    var allRefs := CollectServiceRefs(svc.paths);
    if allRefs.Err? {
      return Err(allRefs.error);
    }
    var comps, _ := ResolveReferences(allRefs.value, svc.components, src, {});
    r := Ok(svc.(components := comps));
  }

  /** One service's step of a pass, through the source's loops. */
  method ApplyPass(p: Pass, svc: Service) returns (r: Result<Service>)
    ensures r == Apply(p, svc)
  {
    match p
    case Collect(src) =>
      r := CollectService(svc, src);
    case RenameParams =>
      var paths := RenamePathParams(svc.paths);
      r := if paths.Err? then Err(paths.error) else Ok(svc.(paths := paths.value));
    case AddTypes =>
      var paths := AddMissingObjectTypes(Obj(svc.paths));
      var comps := AddMissingObjectTypes(Obj(svc.components));
      r := Ok(svc.(paths := Entries(paths), components := Entries(comps)));
    case Cleanup =>
      var comps := PruneComponents(svc.components);
      r := if comps.Err? then Err(comps.error) else Ok(svc.(components := comps.value));
  }

  /** The `services` object of split(), filled by the first pass and
      rewritten in place by the others. */
  /** The operations of one path item, placed one after the other. */
  method PlaceOps(cfg: Options, doc: Json, pathKey: string, item: seq<Entry>, start: Services) returns (r: Result<Acc>)
    ensures r == OpsUpTo(cfg, doc, pathKey, item, |item|, Acc(start, []))
  {
    var acc := Acc(start, []);
    for j := 0 to |item|
      invariant OpsUpTo(cfg, doc, pathKey, item, j, Acc(start, [])) == Ok(acc)
    {
      var placed := PlaceOp(cfg, doc, pathKey, acc, item[j]);
      if placed.Err? {
        OpsErrStays(cfg, doc, pathKey, item, Acc(start, []), j + 1, |item|);
        return placed;
      }
      acc := placed.value;
    }
    return Ok(acc);
  }

  /** The non-operation keys of a path item copied into each service the
      path's operations went to. */
  method CopyServices(services: map<string, Service>, names: seq<string>, pathKey: string, item: seq<Entry>)
    returns (byName: map<string, Service>)
    ensures byName == CopyToServices(services, names, |names|, pathKey, item)
  {
    byName := services;
    for k := 0 to |names|
      invariant byName == CopyToServices(services, names, k, pathKey, item)
    {
      var name := names[k];
      if name in byName {
        var svc := byName[name];
        var copied := CopyPathLevel(ItemOf(svc.paths, pathKey), item);
        byName := byName[name := svc.(paths := Put(svc.paths, pathKey, Obj(copied)))];
      }
    }
  }

  /** One path of the first pass. */
  method ClassifyOne(cfg: Options, doc: Json, services: Services, e: Entry) returns (r: Result<Services>)
    ensures r == ClassifyPath(cfg, doc, services, e)
  {
    if !Truthy(e.value) {
      return Ok(services);
    }
    var item := Entries(e.value);
    var acc := PlaceOps(cfg, doc, e.key, item, services);
    if acc.Err? {
      return Err(acc.error);
    }
    var byName := CopyServices(acc.value.svcs.byName, acc.value.pathServices, e.key, item);
    return Ok(acc.value.svcs.(byName := byName));
  }

  class Splitter {
    var services: Services

    constructor()
      ensures services == Services(map[], [])
    {
      services := Services(map[], []);
    }

    /** The first pass; a thrown error is returned. */
    method ClassifyPaths(cfg: Options, doc: Json) returns (err: Option<string>)
      modifies this
      ensures Classify(cfg, doc).Err? ==> err == Some(Classify(cfg, doc).error)
      ensures Classify(cfg, doc).Ok? ==> err.None? && services == Classify(cfg, doc).value
    {
      var paths := PathsOf(doc);
      services := Services(map[], []);
      for i := 0 to |paths|
        invariant ClassifyUpTo(cfg, doc, paths, i) == Ok(services)
      {
        var next := ClassifyOne(cfg, doc, services, paths[i]);
        if next.Err? {
          ClassifyErrStays(cfg, doc, paths, i + 1, |paths|);
          return Some(next.error);
        }
        services := next.value;
      }
      err := None;
    }

    /** `for (const service in services)` with one pass's step; a thrown
        error is returned. */
    method RunPassOn(p: Pass) returns (err: Option<string>)
      modifies this
      ensures RunPass(old(services), p).Err? ==> err == Some(RunPass(old(services), p).error)
      ensures RunPass(old(services), p).Ok? ==> err.None? && services == RunPass(old(services), p).value
    {
      var order := services.order;
      var m := services.byName;
      var i := 0;
      while i < |order|
        invariant 0 <= i <= |order|
        invariant services == old(services)
        invariant UpdateEach(PassStep(p), services.byName, order, i) == Ok(m)
      {
        var name := order[i];
        if name in m {
          var svc := ApplyPass(p, m[name]);
          if svc.Err? {
            UpdateEachErrStays(PassStep(p), services.byName, order, i + 1, |order|);
            return Some(svc.error);
          }
          m := m[name := svc.value];
        }
        i := i + 1;
      }
      services := services.(byName := m);
      err := None;
    }

    /** The in-memory part of split(): every pass in turn, then the
        document of each service. */
    method Run(cfg: Options, doc: Json) returns (r: Result<map<string, Json>>)
      modifies this
      ensures r == SplitDoc(cfg, doc)
    {
      if doc.Null? {
        return Err("TypeError: cannot read properties of null (reading 'paths')");
      }
      var err := ClassifyPaths(cfg, doc);
      if err.Some? {
        return Err(err.value);
      }
      err := RunPassOn(Collect(SrcComponents(doc)));
      if err.Some? {
        return Err(err.value);
      }
      err := RunPassOn(RenameParams);
      if err.Some? {
        return Err(err.value);
      }
      err := RunPassOn(AddTypes);
      if err.Some? {
        return Err(err.value);
      }
      err := RunPassOn(Cleanup);
      if err.Some? {
        return Err(err.value);
      }
      r := Ok(map name | name in services.byName :: ServiceJson(services.byName[name]));
    }
  }
}
