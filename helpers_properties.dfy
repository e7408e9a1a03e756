/** How the documentation helpers turn response properties into the field
    table of a method (`src/docgen/helpers.js`): `formatProperties` gives each
    property a type string and a one-line description, and
    `sortAndAddProperties` writes them in four groups, each sorted. */
module DocProperties {
  import opened Base
  import opened Text
  import opened JsonModel
  import opened JsonText
  import opened DocOperation

  /** The `key: value` notes made from a property's other string-valued
      fields, in field order. */
  function PropNotes(es: seq<Entry>): (notes: seq<string>)
    decreases |es|
  {
    if es == [] then []
    else
      var rest := PropNotes(es[..|es| - 1]);
      var e := es[|es| - 1];
      if e.key == "type" || e.key == "format" || e.key == "description" || !e.value.Str? then rest
      else rest + [e.key + ": " + e.value.s]
  }

  /** The fields that make a note. */
  predicate NoteField(e: Entry)
  {
    e.key != "type" && e.key != "format" && e.key != "description" && e.value.Str?
  }

  /** Every note comes from one string-valued field other than `type`,
      `format` and `description`, every such field makes one, and the notes
      keep the order of the fields. */
  lemma {:induction false} PropNotesExact(es: seq<Entry>)
    ensures var notes := PropNotes(es);
            |notes| <= |es| &&
            (forall i :: 0 <= i < |es| && NoteField(es[i]) ==> es[i].key + ": " + es[i].value.s in notes) &&
            (forall n :: n in notes ==> exists i :: 0 <= i < |es| && NoteField(es[i]) && n == es[i].key + ": " + es[i].value.s)
    decreases |es|
  {
    if es != [] {
      var init := es[..|es| - 1];
      PropNotesExact(init);
      forall i | 0 <= i < |es| - 1
        ensures es[i] == init[i]
      {
      }
    }
  }

  /** The loop over a property's fields. */
  method CollectPropNotes(es: seq<Entry>) returns (notes: seq<string>)
    ensures notes == PropNotes(es)
  {
    notes := [];
    var k := 0;
    while k < |es|
      invariant 0 <= k <= |es|
      invariant notes == PropNotes(es[..k])
    {
      assert es[..k + 1][..k] == es[..k];
      var e := es[k];
      if e.key != "type" && e.key != "format" && e.key != "description" && e.value.Str? {
        notes := notes + [e.key + ": " + e.value.s];
      }
      k := k + 1;
    }
    assert es[..k] == es;
  }

  /** One property of `formatProperties`: `null` details throw, as does a
      description that is not a string. */
  function FormatProperty(details: Json): (r: Result<Json>)
  {
    if details.Null? then Err(TypeError + ": cannot read properties of null (reading 'type')")
    else
      var description :- CleanDescription(Get(details, "description"));
      var notes := PropNotes(Entries(details));
      var text := if notes == [] then description else description + " (" + Join(notes, ", ") + ")";
      Ok(Details(TypeString(Get(details, "type"), Get(details, "format")), text))
  }

  /** The formatted entry is `{ type, description }`: the type with its
      format in parentheses, and a description with no line break of its own
      followed by the notes of the other string fields. */
  lemma FormatPropertyShape(details: Json)
    ensures FormatProperty(details).Err? <==> details.Null? || !Or(Get(details, "description"), Str("")).Str?
    ensures FormatProperty(details).Ok? ==>
              var base := CleanDescription(Get(details, "description")).value;
              var notes := PropNotes(Entries(details));
              '\n' !in base &&
              FormatProperty(details).value ==
                Details(TypeString(Get(details, "type"), Get(details, "format")),
                        base + (if notes == [] then "" else " (" + Join(notes, ", ") + ")"))
  {
    if FormatProperty(details).Ok? {
      var base := CleanDescription(Get(details, "description")).value;
      var notes := PropNotes(Entries(details));
      var text := if notes == [] then base else base + " (" + Join(notes, ", ") + ")";
      assert FormatProperty(details).value == Details(TypeString(Get(details, "type"), Get(details, "format")), text);
      assert base + "" == base;
      assert base + (" (" + Join(notes, ", ") + ")") == base + " (" + Join(notes, ", ") + ")";
    } else if !details.Null? {
      assert CleanDescription(Get(details, "description")).Err?;
    }
  }

  /** `formatProperties(respProps)`: `allProperties[propName] = { type,
      description }` for each property in turn. */
  function FormatProperties(respProps: Json): Result<seq<Entry>>
  {
    var props := Entries(respProps);
    PutEach(FormatProperty, props, |props|)
  }

  /** Every property is formatted under its own name, and no other name
      appears: the names are those of the properties. */
  lemma FormatPropertiesNamed(respProps: Json)
    ensures FormatProperties(respProps).Ok? ==> NamedAfter(FormatProperties(respProps).value, Entries(respProps))
  {
    var props := Entries(respProps);
    PutEachNamed(FormatProperty, props, |props|);
    assert props[..|props|] == props;
  }

  /** Formatting fails exactly when some property's details cannot be
      formatted; for properties with distinct names, each one's entry is its
      own formatted details. */
  lemma FormatPropertiesLookup(respProps: Json)
    requires UniqueKeys(Entries(respProps))
    ensures FormatProperties(respProps).Ok? ==>
              forall p :: p in Entries(respProps) ==>
                FormatProperty(p.value).Ok? &&
                Lookup(FormatProperties(respProps).value, p.key) == Some(FormatProperty(p.value).value)
  {
    var props := Entries(respProps);
    assert props[..|props|] == props;
    PutEachLookup(FormatProperty, props, |props|);
  }

  /** The body of the loop of `formatProperties`, on one property's
      details. */
  method FormatOne(details: Json) returns (r: Result<Json>)
    ensures r == FormatProperty(details)
  {
    if details.Null? {
      return Err(TypeError + ": cannot read properties of null (reading 'type')");
    }
    var d := Or(Get(details, "description"), Str(""));
    if !d.Str? {
      return Err(TypeError + ": description.replace is not a function");
    }
    var description := MapChar(d.s, '\n', ' ');
    var notes := CollectPropNotes(Entries(details));
    if |notes| > 0 {
      description := description + " (" + Join(notes, ", ") + ")";
    }
    r := Ok(Details(TypeString(Get(details, "type"), Get(details, "format")), description));
  }

  /** The loop of `formatProperties`. */
  method FormatPropertiesLoop(respProps: Json) returns (r: Result<seq<Entry>>)
    ensures r == FormatProperties(respProps)
  {
    var props := Entries(respProps);
    var allProperties: seq<Entry> := [];
    for k := 0 to |props|
      invariant PutEach(FormatProperty, props, k) == Ok(allProperties)
    {
      PutEachStep(FormatProperty, props, k, allProperties);
      var details := FormatOne(props[k].value);
      if details.Err? {
        PutEachErrStays(FormatProperty, props, k + 1, |props|);
        return Err(details.error);
      }
      allProperties := Put(allProperties, props[k].key, details.value);
    }
    r := Ok(allProperties);
  }

  /** The four groups of `sortAndAddProperties`, in the order they are
      written. */
  datatype Group = IdName | IdSuffix | NameSuffix | Other

  /** The filter of each group. The last one keeps the names none of the
      first three filters keeps. */
  predicate InGroup(k: string, g: Group)
  {
    match g
    case IdName => IsIdOrName(k)
    case IdSuffix => IsIdSuffixed(k)
    case NameSuffix => IsNameSuffixed(k)
    case Other => !IsIdOrName(k) && !IsIdSuffixed(k) && !IsNameSuffixed(k)
  }

  predicate IsIdOrName(k: string) { k == "id" || k == "name" }
  predicate IsIdSuffixed(k: string) { k != "id" && EndsWith(k, "_id") }
  predicate IsNameSuffixed(k: string) { k != "name" && EndsWith(k, "_name") }

  function Rank(g: Group): nat
  {
    match g
    case IdName => 0
    case IdSuffix => 1
    case NameSuffix => 2
    case Other => 3
  }

  /** The group a name is written in. */
  function GroupOf(k: string): (g: Group)
    ensures InGroup(k, g)
  {
    if InGroup(k, IdName) then IdName
    else if InGroup(k, IdSuffix) then IdSuffix
    else if InGroup(k, NameSuffix) then NameSuffix
    else Other
  }

  /** No name passes two filters: the groups split the names. */
  lemma GroupsDisjoint(k: string, g: Group)
    requires InGroup(k, g)
    ensures g == GroupOf(k)
  {
    if g == NameSuffix {
      assert k[|k| - 1] == k[|k| - 5..][4] == 'e';
    } else if g == IdSuffix {
      assert k[|k| - 1] == k[|k| - 3..][2] == 'd';
    }
  }

  /** `Object.keys(allProperties).filter(...)` for one group. */
  function Where(ks: seq<string>, g: Group): (r: seq<string>)
    decreases |ks|
  {
    if ks == [] then []
    else
      var rest := Where(ks[..|ks| - 1], g);
      if InGroup(ks[|ks| - 1], g) then rest + [ks[|ks| - 1]] else rest
  }

  lemma {:induction false} WhereElems(ks: seq<string>, g: Group)
    ensures forall k :: k in Where(ks, g) <==> k in ks && InGroup(k, g)
    ensures multiset(Where(ks, g)) <= multiset(ks)
    decreases |ks|
  {
    if ks != [] {
      WhereElems(ks[..|ks| - 1], g);
      assert ks == ks[..|ks| - 1] + [ks[|ks| - 1]];
    }
  }

  /** The names in the order they are written: each group sorted, the
      groups one after another. */
  function SortedFieldNames(ks: seq<string>): seq<string>
  {
    SortStrings(Where(ks, IdName)) + SortStrings(Where(ks, IdSuffix)) +
    SortStrings(Where(ks, NameSuffix)) + SortStrings(Where(ks, Other))
  }

  /** The groups together hold every name exactly as often as the input. */
  lemma {:induction false} WherePartition(ks: seq<string>)
    ensures multiset(Where(ks, IdName)) + multiset(Where(ks, IdSuffix)) +
            multiset(Where(ks, NameSuffix)) + multiset(Where(ks, Other)) == multiset(ks)
    decreases |ks|
  {
    if ks != [] {
      var init := ks[..|ks| - 1];
      var k := ks[|ks| - 1];
      WherePartition(init);
      assert ks == init + [k];
      var g := GroupOf(k);
      forall h | h != g
        ensures !InGroup(k, h)
      {
        if InGroup(k, h) {
          GroupsDisjoint(k, h);
        }
      }
    }
  }

  /** The order fields are written in: by group, then by name. */
  predicate FieldLe(a: string, b: string)
  {
    Rank(GroupOf(a)) < Rank(GroupOf(b)) || (GroupOf(a) == GroupOf(b) && LexLe(a, b))
  }

  predicate InFieldOrder(xs: seq<string>)
  {
    forall i, j :: 0 <= i < j < |xs| ==> FieldLe(xs[i], xs[j])
  }

  /** One sorted group is in field order, and all its names are of that
      group. */
  lemma SortedGroup(ks: seq<string>, g: Group)
    ensures forall k :: k in SortStrings(Where(ks, g)) ==> GroupOf(k) == g
    ensures InFieldOrder(SortStrings(Where(ks, g)))
  {
    var s := SortStrings(Where(ks, g));
    WhereElems(ks, g);
    forall k | k in s
      ensures GroupOf(k) == g
    {
      assert k in multiset(s);
      GroupsDisjoint(k, g);
    }
  }

  /** Appending a later group keeps field order. */
  lemma OrderedConcat(a: seq<string>, b: seq<string>, r: nat)
    requires InFieldOrder(a) && InFieldOrder(b)
    requires forall k :: k in a ==> Rank(GroupOf(k)) < r
    requires forall k :: k in b ==> Rank(GroupOf(k)) >= r
    ensures InFieldOrder(a + b)
  {
    var s := a + b;
    forall i, j | 0 <= i < j < |s|
      ensures FieldLe(s[i], s[j])
    {
      if j < |a| {
        assert s[i] == a[i] && s[j] == a[j];
      } else if i >= |a| {
        assert s[i] == b[i - |a|] && s[j] == b[j - |a|];
      } else {
        assert s[i] in a && s[j] in b;
      }
    }
  }

  /** The promise of `sortAndAddProperties`: each name of the input is
      written exactly as often as it occurs, `id` and `name` first, then the
      names ending in `_id`, then those ending in `_name`, then the rest,
      each group in ascending order. */
  lemma SortedFieldNamesOrder(ks: seq<string>)
    ensures multiset(SortedFieldNames(ks)) == multiset(ks)
    ensures InFieldOrder(SortedFieldNames(ks))
  {
    WherePartition(ks);
    var a := SortStrings(Where(ks, IdName));
    var b := SortStrings(Where(ks, IdSuffix));
    var c := SortStrings(Where(ks, NameSuffix));
    var d := SortStrings(Where(ks, Other));
    SortedGroup(ks, IdName);
    SortedGroup(ks, IdSuffix);
    SortedGroup(ks, NameSuffix);
    SortedGroup(ks, Other);
    OrderedConcat(a, b, 1);
    forall k | k in a + b
      ensures Rank(GroupOf(k)) < 2
    {
    }
    OrderedConcat(a + b, c, 2);
    forall k | k in a + b + c
      ensures Rank(GroupOf(k)) < 3
    {
    }
    OrderedConcat(a + b + c, d, 3);
  }

  /** A sequence with the same elements as one without duplicates has none
      either. */
  lemma NoDupPerm(xs: seq<string>, ys: seq<string>)
    requires NoDup(xs) && multiset(xs) == multiset(ys)
    ensures NoDup(ys)
  {
    forall i, j | 0 <= i < j < |ys|
      ensures ys[i] != ys[j]
    {
      if ys[i] == ys[j] {
        var x := ys[i];
        assert ys == ys[..i] + [x] + ys[i + 1..j] + [x] + ys[j + 1..];
        assert multiset(ys)[x] >= 2;
        NoDupCount(xs, x);
        assert false;
      }
    }
  }

  lemma {:induction false} NoDupCount(xs: seq<string>, x: string)
    requires NoDup(xs)
    ensures multiset(xs)[x] <= 1
    decreases |xs|
  {
    if xs != [] {
      var tail := xs[1..];
      assert xs == [xs[0]] + tail;
      assert NoDup(tail) by {
        forall i, j | 0 <= i < j < |tail|
          ensures tail[i] != tail[j]
        {
          assert tail[i] == xs[i + 1] && tail[j] == xs[j + 1];
        }
      }
      NoDupCount(tail, x);
      if xs[0] == x {
        assert x !in tail by {
          forall i | 0 <= i < |tail|
            ensures tail[i] != x
          {
            assert tail[i] == xs[i + 1];
          }
        }
      }
    }
  }

  /** `allProperties[propName]` for a name taken from `allProperties`. */
  function PropOf(all: seq<Entry>, k: string): Json
  {
    match Lookup(all, k)
    case Some(v) => v
    case None => Null
  }

  /** `methodObj.properties` after writing the first `n` names. */
  function WrittenUpTo(props: seq<Entry>, all: seq<Entry>, names: seq<string>, n: nat): seq<Entry>
    requires n <= |names|
    decreases n
  {
    if n == 0 then props
    else Put(WrittenUpTo(props, all, names, n - 1), names[n - 1], PropOf(all, names[n - 1]))
  }

  /** `sortAndAddProperties(methodObj, allProperties)`: the new value of
      `methodObj.properties`. */
  function SortAndAdd(props: seq<Entry>, all: seq<Entry>): seq<Entry>
  {
    var names := SortedFieldNames(Keys(all));
    WrittenUpTo(props, all, names, |names|)
  }

  /** Writing distinct names onto an empty object lists exactly those names,
      in that order, each with its value from `all`. */
  lemma {:induction false} WrittenUpToFresh(all: seq<Entry>, names: seq<string>, n: nat)
    requires n <= |names| && NoDup(names)
    ensures WrittenFresh(WrittenUpTo([], all, names, n), all, names[..n])
    decreases n
  {
    if n > 0 {
      WrittenUpToFresh(all, names, n - 1);
      WrittenFreshStep(WrittenUpTo([], all, names, n - 1), all, names, n);
    }
  }

  /** `r` lists exactly the names `ns`, in that order, each with its value
      from `all`. */
  ghost predicate WrittenFresh(r: seq<Entry>, all: seq<Entry>, ns: seq<string>)
  {
    Keys(r) == ns && forall k :: k in ns ==> Lookup(r, k) == Some(PropOf(all, k))
  }

  lemma WrittenFreshStep(acc: seq<Entry>, all: seq<Entry>, names: seq<string>, n: nat)
    requires 0 < n <= |names| && NoDup(names)
    requires WrittenFresh(acc, all, names[..n - 1])
    ensures WrittenFresh(Put(acc, names[n - 1], PropOf(all, names[n - 1])), all, names[..n])
  {
    var k := names[n - 1];
    PrefixSnoc(names, n);
    assert forall i :: 0 <= i < n - 1 ==> names[..n - 1][i] == names[i];
    assert k !in names[..n - 1];
    PutKeys(acc, k, PropOf(all, k));
  }

  /** With the method's `properties` starting empty, as the caller sets
      them, the fields are written in field order, each name of
      `allProperties` once, each with its own details. */
  lemma SortAndAddFresh(all: seq<Entry>)
    requires UniqueKeys(all)
    ensures var r := SortAndAdd([], all);
            multiset(Keys(r)) == multiset(Keys(all)) &&
            InFieldOrder(Keys(r)) &&
            forall k :: k in Keys(all) ==> Lookup(r, k) == Lookup(all, k)
  {
    var names := SortedFieldNames(Keys(all));
    SortedFieldNamesOrder(Keys(all));
    NoDupPerm(Keys(all), names);
    WrittenUpToFresh(all, names, |names|);
    assert names[..|names|] == names;
    assert WrittenFresh(SortAndAdd([], all), all, names);
    forall k | k in Keys(all)
      ensures Lookup(all, k).Some? && PropOf(all, k) == Lookup(all, k).value
    {
      LookupFound(all, k);
    }
    forall k | k in Keys(all)
      ensures k in names
    {
      assert k in multiset(Keys(all));
    }
  }

  /** The loop of `sortAndAddProperties`. */
  method SortAndAddProperties(props: seq<Entry>, all: seq<Entry>) returns (r: seq<Entry>)
    ensures r == SortAndAdd(props, all)
  {
    var exactIdNameFields := Where(Keys(all), IdName);
    var idSuffixFields := Where(Keys(all), IdSuffix);
    var nameSuffixFields := Where(Keys(all), NameSuffix);
    var otherFields := Where(Keys(all), Other);
    var sortedFieldNames := SortStrings(exactIdNameFields) + SortStrings(idSuffixFields) +
                            SortStrings(nameSuffixFields) + SortStrings(otherFields);
    r := WriteFields(props, all, sortedFieldNames);
  }

  /** The loop that writes the fields in the given order. */
  method WriteFields(props: seq<Entry>, all: seq<Entry>, names: seq<string>) returns (r: seq<Entry>)
    ensures r == WrittenUpTo(props, all, names, |names|)
  {
    r := props;
    var k := 0;
    while k < |names|
      invariant 0 <= k <= |names|
      invariant r == WrittenUpTo(props, all, names, k)
    {
      r := Put(r, names[k], PropOf(all, names[k]));
      k := k + 1;
    }
  }
}
