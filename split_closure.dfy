/** `resolveReferences` in `src/providerdev/split.js`: the components a
    service's operations refer to are copied from the source document into
    the service, together with everything those components refer to. */
module SplitClosure {
  import opened Base
  import opened Text
  import opened JsonModel
  import opened SplitRefs

  /** The component a ref names: the third and fourth parts of
      `ref.split('/')`, when there are at least four parts and the second is
      `components`. */
  function Target(r: string): Option<(string, string)>
  {
    var parts := Split(r, '/');
    if |parts| >= 4 && parts[1] == "components" then Some((parts[2], parts[3])) else None
  }

  /** A service's bucket of components of one type (`{}` when absent). */
  function Bucket(comps: seq<Entry>, t: string): seq<Entry>
  {
    match Lookup(comps, t)
    case Some(Obj(es)) => es
    case _ => []
  }

  /** `service.components[t][n]`. */
  function Comp(comps: seq<Entry>, t: string, n: string): Option<Json>
  {
    Lookup(Bucket(comps, t), n)
  }

  /** The service already holds component `t/n`. */
  predicate Has(comps: seq<Entry>, t: string, n: string)
  {
    TruthyOpt(Comp(comps, t, n))
  }

  /** `components[t] && components[t][n]` on the source document's
      components. */
  function Source(src: Json, t: string, n: string): Option<Json>
  {
    var b := Get(src, t);
    if TruthyOpt(b) then Get(b.value, n) else None
  }

  /** The state of one call of resolveReferences: the service's components,
      the shared `processed` set, and the `newRefs` found so far. */
  datatype Round = Round(comps: seq<Entry>, processed: set<string>, found: seq<string>)

  /** `for (const cRef of componentRefs) if (!processed.has(cRef)) newRefs.add(cRef)`. */
  function AddFresh(found: seq<string>, rs: seq<string>, processed: set<string>): seq<string>
    decreases |rs|
  {
    if rs == [] then found
    else
      var prev := AddFresh(found, rs[..|rs| - 1], processed);
      if rs[|rs| - 1] in processed then prev else SetAdd(prev, rs[|rs| - 1])
  }

  /** One iteration of the loop over `refs`. A ref is handled once; a ref
      that names a component creates its type's bucket, and copies the
      component from the source unless the service already has it. */
  function Step(st: Round, r: string, src: Json): Round
  {
    if r in st.processed then st
    else
      var processed := st.processed + {r};
      match Target(r)
      case None => st.(processed := processed)
      case Some((t, n)) =>
        var comps := if TruthyOpt(Lookup(st.comps, t)) then st.comps else Put(st.comps, t, Obj([]));
        if Has(comps, t, n) || !TruthyOpt(Source(src, t, n)) then Round(comps, processed, st.found)
        else
          var v := Source(src, t, n).value;
          Round(Put(comps, t, Obj(Put(Bucket(comps, t), n, v))), processed,
                AddFresh(st.found, RefsOf(v), processed))
  }

  /** The loop over `refs`. */
  function RoundOf(refs: seq<string>, st: Round, src: Json): Round
    decreases |refs|
  {
    if refs == [] then st
    else Step(RoundOf(refs[..|refs| - 1], st, src), refs[|refs| - 1], src)
  }

  /** Every ref string anywhere in the source components. */
  ghost function Universe(src: Json): set<string>
  {
    set z | z in RefsOf(src)
  }

  ghost function Measure(refs: seq<string>, processed: set<string>, src: Json): nat
  {
    |(Universe(src) + Elems(refs)) - processed|
  }

  /** `resolveReferences(refs, service, components, debug, processed)`:
      the service's components and `processed` afterwards. It recurses on the
      new refs while there are any; each round processes at least one ref of
      the source components that was not processed before. */
  function Resolve(refs: seq<string>, comps: seq<Entry>, processed: set<string>, src: Json): (seq<Entry>, set<string>)
    decreases Measure(refs, processed, src)
  {
    var st := RoundOf(refs, Round(comps, processed, []), src);
    if |st.found| == 0 then (st.comps, st.processed)
    else
      RoundDecreases(refs, comps, processed, src);
      Resolve(st.found, st.comps, st.processed, src)
  }

  lemma {:induction false} AddFreshMembers(found: seq<string>, rs: seq<string>, processed: set<string>, z: string)
    ensures z in AddFresh(found, rs, processed) <==> z in found || (z in rs && z !in processed)
    decreases |rs|
  {
    if rs != [] {
      AddFreshMembers(found, rs[..|rs| - 1], processed, z);
      assert rs == rs[..|rs| - 1] + [rs[|rs| - 1]];
    }
  }

  /** The refs of a source component are refs of the source components. */
  lemma SourceRefs(src: Json, t: string, n: string, z: string)
    requires TruthyOpt(Source(src, t, n))
    requires z in RefsOf(Source(src, t, n).value)
    ensures z in Universe(src)
  {
    var b := Get(src, t).value;
    var v := Source(src, t, n).value;
    LookupFound(src.entries, t);
    var i :| 0 <= i < |src.entries| && src.entries[i] == Entry(t, b);
    LookupFound(b.entries, n);
    var k :| 0 <= k < |b.entries| && b.entries[k] == Entry(n, v);
    assert Child(b, k) == v;
    ChildRefs(b, k, z);
    assert Child(src, i) == b;
    ChildRefs(src, i, z);
  }

  lemma StepFacts(st: Round, r: string, src: Json)
    ensures Step(st, r, src).processed == st.processed + {r}
    ensures forall z :: z in Step(st, r, src).found ==> z in st.found || z in Universe(src)
    ensures r in st.processed ==> Step(st, r, src) == st
  {
    var st' := Step(st, r, src);
    if r !in st.processed && Target(r).Some? {
      var (t, n) := Target(r).value;
      var comps := if TruthyOpt(Lookup(st.comps, t)) then st.comps else Put(st.comps, t, Obj([]));
      if !(Has(comps, t, n) || !TruthyOpt(Source(src, t, n))) {
        var v := Source(src, t, n).value;
        forall z | z in st'.found
          ensures z in st.found || z in Universe(src)
        {
          AddFreshMembers(st.found, RefsOf(v), st'.processed, z);
          if z !in st.found {
            SourceRefs(src, t, n, z);
          }
        }
      }
    }
  }

  lemma {:induction false} RoundFacts(refs: seq<string>, st: Round, src: Json)
    ensures RoundOf(refs, st, src).processed == st.processed + Elems(refs)
    ensures forall z :: z in RoundOf(refs, st, src).found ==> z in st.found || z in Universe(src)
    ensures Elems(refs) <= st.processed ==> RoundOf(refs, st, src) == st
    decreases |refs|
  {
    if refs != [] {
      var pre := refs[..|refs| - 1];
      var last := refs[|refs| - 1];
      assert refs == pre + [last];
      assert Elems(refs) == Elems(pre) + {last};
      RoundFacts(pre, st, src);
      StepFacts(RoundOf(pre, st, src), last, src);
    }
  }

  /** The termination argument of resolveReferences. */
  lemma RoundDecreases(refs: seq<string>, comps: seq<Entry>, processed: set<string>, src: Json)
    ensures var st := RoundOf(refs, Round(comps, processed, []), src);
            |st.found| > 0 ==> Measure(st.found, st.processed, src) < Measure(refs, processed, src)
  {
    var st0 := Round(comps, processed, []);
    var st := RoundOf(refs, st0, src);
    RoundFacts(refs, st0, src);
    if |st.found| > 0 {
      var u := Universe(src);
      var a := (u + Elems(st.found)) - st.processed;
      var b := (u + Elems(refs)) - processed;
      assert Elems(st.found) <= u;
      assert a <= b;
      var r :| r in Elems(refs) && r !in processed;
      assert r in b && r !in a;
      ProperSubsetSmaller(a, b);
    }
  }

  /** Writing component `t/n` changes no other component. */
  lemma CompPut(comps: seq<Entry>, t: string, n: string, v: Json, t': string, n': string)
    ensures Comp(Put(comps, t, Obj(Put(Bucket(comps, t), n, v))), t', n') ==
            if t' == t && n' == n then Some(v) else Comp(comps, t', n')
  {
  }

  /** Creating a missing bucket changes no component. */
  lemma CompNewBucket(comps: seq<Entry>, t: string, t': string, n': string)
    requires !TruthyOpt(Lookup(comps, t))
    ensures Comp(Put(comps, t, Obj([])), t', n') == Comp(comps, t', n')
  {
  }

  /** A step leaves a present component alone, and otherwise either leaves a
      component alone or copies it from the source. */
  lemma StepComp(st: Round, r: string, src: Json, t': string, n': string)
    ensures Has(st.comps, t', n') ==> Comp(Step(st, r, src).comps, t', n') == Comp(st.comps, t', n')
    ensures Comp(Step(st, r, src).comps, t', n') == Comp(st.comps, t', n') ||
            (Comp(Step(st, r, src).comps, t', n') == Source(src, t', n') && TruthyOpt(Source(src, t', n')) &&
             !Has(st.comps, t', n') && r !in st.processed && Target(r) == Some((t', n')))
  {
    if r !in st.processed && Target(r).Some? {
      var (t, n) := Target(r).value;
      var comps := if TruthyOpt(Lookup(st.comps, t)) then st.comps else Put(st.comps, t, Obj([]));
      if !TruthyOpt(Lookup(st.comps, t)) {
        CompNewBucket(st.comps, t, t', n');
        CompNewBucket(st.comps, t, t, n);
      }
      if !(Has(comps, t, n) || !TruthyOpt(Source(src, t, n))) {
        CompPut(comps, t, n, Source(src, t, n).value, t', n');
      }
    }
  }

  /** The ref `r` has been dealt with: if it names a component that the
      source has, the service has it too. */
  ghost predicate Resolved(src: Json, comps: seq<Entry>, r: string)
  {
    match Target(r)
    case None => true
    case Some((t, n)) => TruthyOpt(Source(src, t, n)) ==> Has(comps, t, n)
  }

  ghost predicate Handled(src: Json, comps: seq<Entry>, processed: set<string>)
  {
    forall r :: r in processed ==> Resolved(src, comps, r)
  }

  /** Every component that differs from `orig` has all its refs in `cov`. */
  ghost predicate Closed(orig: seq<Entry>, comps: seq<Entry>, cov: set<string>)
  {
    forall t, n :: Comp(comps, t, n).Some? && Comp(comps, t, n) != Comp(orig, t, n) ==>
      forall z :: z in RefsOf(Comp(comps, t, n).value) ==> z in cov
  }

  /** Components present in `orig` are unchanged. */
  ghost predicate Kept(orig: seq<Entry>, comps: seq<Entry>)
  {
    forall t, n :: Has(orig, t, n) ==> Comp(comps, t, n) == Comp(orig, t, n)
  }

  /** Every component is as in `orig` or a copy of the source's. */
  ghost predicate Sourced(orig: seq<Entry>, comps: seq<Entry>, src: Json)
  {
    forall t, n :: Comp(comps, t, n) == Comp(orig, t, n) || Comp(comps, t, n) == Source(src, t, n)
  }

  function Cov(st: Round): set<string>
  {
    st.processed + Elems(st.found)
  }

  lemma StepHandled(st: Round, r: string, src: Json)
    requires Handled(src, st.comps, st.processed)
    ensures Handled(src, Step(st, r, src).comps, Step(st, r, src).processed)
  {
    var st' := Step(st, r, src);
    forall q | q in st'.processed
      ensures Resolved(src, st'.comps, q)
    {
      if Target(q).Some? {
        var (t, n) := Target(q).value;
        StepComp(st, r, src, t, n);
        if q != r || r in st.processed {
          assert q in st.processed;
        } else if !Has(st.comps, t, n) && TruthyOpt(Source(src, t, n)) {
          var comps := if TruthyOpt(Lookup(st.comps, t)) then st.comps else Put(st.comps, t, Obj([]));
          if !TruthyOpt(Lookup(st.comps, t)) {
            CompNewBucket(st.comps, t, t, n);
          }
          CompPut(comps, t, n, Source(src, t, n).value, t, n);
        }
      }
    }
  }

  lemma StepClosed(orig: seq<Entry>, st: Round, r: string, src: Json, x: set<string>)
    requires Closed(orig, st.comps, Cov(st) + x + {r})
    ensures Closed(orig, Step(st, r, src).comps, Cov(Step(st, r, src)) + x)
  {
    var st' := Step(st, r, src);
    StepFacts(st, r, src);
    if r !in st.processed {
      assert Elems(st.found) <= Elems(st'.found) by {
        if Target(r).Some? {
          var (t, n) := Target(r).value;
          var comps := if TruthyOpt(Lookup(st.comps, t)) then st.comps else Put(st.comps, t, Obj([]));
          if !(Has(comps, t, n) || !TruthyOpt(Source(src, t, n))) {
            forall z | z in st.found ensures z in st'.found {
              AddFreshMembers(st.found, RefsOf(Source(src, t, n).value), st'.processed, z);
            }
          }
        }
      }
    }
    forall t', n' | Comp(st'.comps, t', n').Some? && Comp(st'.comps, t', n') != Comp(orig, t', n')
      ensures forall z :: z in RefsOf(Comp(st'.comps, t', n').value) ==> z in Cov(st') + x
    {
      StepComp(st, r, src, t', n');
      if Comp(st'.comps, t', n') != Comp(st.comps, t', n') {
        var v := Source(src, t', n').value;
        forall z | z in RefsOf(v) ensures z in Cov(st') + x {
          AddFreshMembers(st.found, RefsOf(v), st'.processed, z);
        }
      }
    }
  }

  /** The invariants of one round of resolveReferences. */
  lemma {:induction false} RoundInv(orig: seq<Entry>, refs: seq<string>, st: Round, src: Json, x: set<string>)
    requires Handled(src, st.comps, st.processed)
    requires Closed(orig, st.comps, Cov(st) + Elems(refs) + x)
    requires Kept(orig, st.comps) && Sourced(orig, st.comps, src)
    ensures var st' := RoundOf(refs, st, src);
            Handled(src, st'.comps, st'.processed) && Closed(orig, st'.comps, Cov(st') + x) &&
            Kept(orig, st'.comps) && Sourced(orig, st'.comps, src)
    decreases |refs|
  {
    if refs == [] {
      assert Cov(st) + Elems(refs) + x == Cov(st) + x;
    } else {
      var pre := refs[..|refs| - 1];
      var last := refs[|refs| - 1];
      assert refs == pre + [last];
      assert Cov(st) + Elems(pre) + (x + {last}) == Cov(st) + Elems(refs) + x;
      RoundInv(orig, pre, st, src, x + {last});
      var mid := RoundOf(pre, st, src);
      assert Cov(mid) + (x + {last}) == Cov(mid) + x + {last};
      StepHandled(mid, last, src);
      StepClosed(orig, mid, last, src, x);
      var st' := Step(mid, last, src);
      forall t, n ensures (Has(orig, t, n) ==> Comp(st'.comps, t, n) == Comp(orig, t, n)) &&
                          (Comp(st'.comps, t, n) == Comp(orig, t, n) || Comp(st'.comps, t, n) == Source(src, t, n))
      {
        StepComp(mid, last, src, t, n);
      }
    }
  }

  /** The invariants of the whole recursion. */
  lemma {:induction false} ResolveInv(orig: seq<Entry>, refs: seq<string>, comps: seq<Entry>, processed: set<string>, src: Json)
    requires Handled(src, comps, processed)
    requires Closed(orig, comps, processed + Elems(refs))
    requires Kept(orig, comps) && Sourced(orig, comps, src)
    ensures var (c, p) := Resolve(refs, comps, processed, src);
            Handled(src, c, p) && Closed(orig, c, p) && Kept(orig, c) && Sourced(orig, c, src) &&
            processed + Elems(refs) <= p
    decreases Measure(refs, processed, src)
  {
    var st0 := Round(comps, processed, []);
    var st := RoundOf(refs, st0, src);
    assert Cov(st0) + Elems(refs) + {} == processed + Elems(refs);
    RoundInv(orig, refs, st0, src, {});
    RoundFacts(refs, st0, src);
    assert Cov(st) + {} == st.processed + Elems(st.found);
    if |st.found| == 0 {
      assert Elems(st.found) == {};
    } else {
      RoundDecreases(refs, comps, processed, src);
      ResolveInv(orig, st.found, st.comps, st.processed, src);
    }
  }

  /** What resolveReferences guarantees when split() calls it with a fresh
      `processed` set: every ref passed in that names a component of the
      source is present afterwards; a component present before is never
      overwritten; every other component equals the source's; and every
      component ref inside an added component is resolved too. */
  lemma ResolveClosure(refs: seq<string>, comps: seq<Entry>, src: Json)
    ensures var (c, p) := Resolve(refs, comps, {}, src);
            (forall r :: r in refs ==> Resolved(src, c, r)) &&
            (forall t, n :: Has(comps, t, n) ==> Comp(c, t, n) == Comp(comps, t, n)) &&
            (forall t, n :: Comp(c, t, n) == Comp(comps, t, n) || Comp(c, t, n) == Source(src, t, n)) &&
            (forall t, n :: Comp(c, t, n).Some? && Comp(c, t, n) != Comp(comps, t, n) ==>
               forall z :: z in RefsOf(Comp(c, t, n).value) ==> Resolved(src, c, z))
  {
    ResolveInv(comps, refs, comps, {}, src);
  }

  /** The first four parts of a text made of four separator-free parts and a
      tail that is empty or starts with the separator. */
  lemma {:induction false} SplitFour(a: string, b: string, c: string, d: string, tail: string, sep: char)
    requires sep !in a && sep !in b && sep !in c && sep !in d
    requires tail == [] || tail[0] == sep
    ensures |Split(a + [sep] + b + [sep] + c + [sep] + d + tail, sep)| >= 4
    ensures Split(a + [sep] + b + [sep] + c + [sep] + d + tail, sep)[..4] == [a, b, c, d]
  {
    var rest3 := d + tail;
    var rest2 := c + [sep] + rest3;
    var rest1 := b + [sep] + rest2;
    assert a + [sep] + b + [sep] + c + [sep] + d + tail == a + [sep] + rest1;
    SplitAt(a, rest1, sep);
    SplitAt(b, rest2, sep);
    SplitAt(c, rest3, sep);
    if tail == [] {
      assert rest3 == d;
      SplitNoSeparator(d, sep);
    } else {
      assert rest3 == d + [sep] + tail[1..];
      SplitAt(d, tail[1..], sep);
    }
  }

  /** A ref of the form `<a>/components/<t>/<n>`, possibly followed by more
      `/`-separated parts, names component `t/n`. */
  lemma TargetOfComponentRef(a: string, t: string, n: string, tail: string)
    requires '/' !in a && '/' !in t && '/' !in n
    requires tail == [] || tail[0] == '/'
    ensures Target(a + "/components/" + t + "/" + n + tail) == Some((t, n))
  {
    var c := "components";
    assert '/' !in c;
    ComponentRefParts(a, t, n, tail);
    SplitFour(a, c, t, n, tail, '/');
  }

  lemma ComponentRefParts(a: string, t: string, n: string, tail: string)
    ensures a + "/components/" + t + "/" + n + tail == a + ['/'] + "components" + ['/'] + t + ['/'] + n + tail
  {
    assert "/components/" == ['/'] + "components" + ['/'];
    assert a + "/components/" == a + ['/'] + "components" + ['/'];
  }

  /** Joining four or more parts. */
  lemma {:induction false} JoinFour(parts: seq<string>, sep: char)
    requires |parts| >= 4
    ensures Join(parts, [sep]) ==
            parts[0] + [sep] + parts[1] + [sep] + parts[2] + [sep] + parts[3] +
            (if |parts| == 4 then [] else [sep] + Join(parts[4..], [sep]))
  {
    var s := [sep];
    assert Join(parts, s) == parts[0] + s + Join(parts[1..], s);
    assert Join(parts[1..], s) == parts[1] + s + Join(parts[2..], s) by {
      assert parts[1..][1..] == parts[2..];
    }
    assert Join(parts[2..], s) == parts[2] + s + Join(parts[3..], s) by {
      assert parts[2..][1..] == parts[3..];
    }
    if |parts| > 4 {
      assert Join(parts[3..], s) == parts[3] + s + Join(parts[4..], s) by {
        assert parts[3..][1..] == parts[4..];
      }
    }
  }

  /** Conversely, every ref that names a component has that form. */
  lemma ComponentRefForm(r: string, t: string, n: string) returns (a: string, tail: string)
    requires Target(r) == Some((t, n))
    ensures '/' !in a && '/' !in t && '/' !in n
    ensures tail == [] || tail[0] == '/'
    ensures r == a + "/components/" + t + "/" + n + tail
  {
    var parts := Split(r, '/');
    SplitJoin(r, '/');
    JoinFour(parts, '/');
    a := parts[0];
    tail := if |parts| == 4 then [] else ['/'] + Join(parts[4..], ['/']);
    assert r == a + ['/'] + parts[1] + ['/'] + t + ['/'] + n + tail;
    assert parts[1] == "components";
  }

  /** `for (const cRef of componentRefs) if (!processed.has(cRef)) newRefs.add(cRef)`. */
  method AddUnprocessed(found: seq<string>, rs: seq<string>, processed: set<string>) returns (newRefs: seq<string>)
    ensures newRefs == AddFresh(found, rs, processed)
  {
    newRefs := found;
    var k := 0;
    while k < |rs|
      invariant 0 <= k <= |rs|
      invariant newRefs == AddFresh(found, rs[..k], processed)
    {
      assert rs[..k + 1][..k] == rs[..k];
      if rs[k] !in processed {
        newRefs := SetAdd(newRefs, rs[k]);
      }
      k := k + 1;
    }
    assert rs[..k] == rs;
  }

  /** resolveReferences in the source's own form: a loop over `refs` that
      updates the service's components and `processed`, then a recursive call
      on the new refs. */
  method ResolveReferences(refs: seq<string>, comps: seq<Entry>, src: Json, processed: set<string>)
    returns (comps': seq<Entry>, processed': set<string>)
    ensures (comps', processed') == Resolve(refs, comps, processed, src)
    decreases Measure(refs, processed, src)
  {
    var newRefs: seq<string> := [];
    comps', processed' := comps, processed;
    var i := 0;
    while i < |refs|
      invariant 0 <= i <= |refs|
      invariant RoundOf(refs[..i], Round(comps, processed, []), src) == Round(comps', processed', newRefs)
    {
      assert refs[..i + 1][..i] == refs[..i];
      var r := refs[i];
      if r !in processed' {
        processed' := processed' + {r};
        var parts := Split(r, '/');
        if |parts| >= 4 && parts[1] == "components" {
          var t, n := parts[2], parts[3];
          if !TruthyOpt(Lookup(comps', t)) {
            comps' := Put(comps', t, Obj([]));
          }
          if !Has(comps', t, n) && TruthyOpt(Source(src, t, n)) {
            var v := Source(src, t, n).value;
            comps' := Put(comps', t, Obj(Put(Bucket(comps', t), n, v)));
            var cRefs := GetAllRefs(v);
            newRefs := AddUnprocessed(newRefs, cRefs, processed');
          }
        }
      }
      i := i + 1;
    }
    assert refs[..i] == refs;
    if |newRefs| > 0 {
      RoundDecreases(refs, comps, processed, src);
      comps', processed' := ResolveReferences(newRefs, comps', src, processed');
    }
  }
}
