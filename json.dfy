/** Parsed JSON/YAML documents as the JavaScript code sees them: objects keep
    their keys in insertion order, numbers are integers, and `undefined` (a
    missing key) is `None` of an `Option<Json>`. */
module JsonModel {
  import opened Base

  datatype Json =
    | Null
    | Bool(b: bool)
    | Num(n: int)
    | Str(s: string)
    | Arr(items: seq<Json>)
    | Obj(entries: seq<Entry>)

  datatype Entry = Entry(key: string, value: Json)

  /** JavaScript truthiness. */
  predicate Truthy(j: Json)
  {
    match j
    case Null => false
    case Bool(b) => b
    case Num(n) => n != 0
    case Str(s) => s != []
    case _ => true
  }

  /** Truthiness of a property read that may be `undefined`. */
  predicate TruthyOpt(o: Option<Json>)
  {
    o.Some? && Truthy(o.value)
  }

  /** `typeof j === 'object' && j !== null`. */
  predicate IsObjectLike(j: Json)
  {
    j.Arr? || j.Obj?
  }

  function Keys(es: seq<Entry>): (ks: seq<string>)
    ensures |ks| == |es|
    ensures forall i :: 0 <= i < |es| ==> ks[i] == es[i].key
    decreases |es|
  {
    if es == [] then [] else [es[0].key] + Keys(es[1..])
  }

  predicate UniqueKeys(es: seq<Entry>)
  {
    NoDup(Keys(es))
  }

  /** `obj[k]` on an object: the value of the first entry with key `k`. */
  function Lookup(es: seq<Entry>, k: string): Option<Json>
    decreases |es|
  {
    if es == [] then None
    else if es[0].key == k then Some(es[0].value)
    else Lookup(es[1..], k)
  }

  /** A lookup succeeds exactly on the keys present, and finds an entry. */
  lemma {:induction false} LookupFound(es: seq<Entry>, k: string)
    ensures Lookup(es, k).Some? <==> k in Keys(es)
    ensures Lookup(es, k).Some? ==> Entry(k, Lookup(es, k).value) in es
    decreases |es|
  {
    if es != [] && es[0].key != k {
      LookupFound(es[1..], k);
    }
  }

  /** `j[k]` where `j` is not `null`: only objects have the keys used here. */
  function Get(j: Json, k: string): Option<Json>
  {
    if j.Obj? then Lookup(j.entries, k) else None
  }

  /** `j[k]` on a value that may be `null`, which throws a TypeError. */
  function Member(j: Json, k: string): (r: Result<Option<Json>>)
    ensures r.Err? <==> j.Null?
    ensures r.Ok? ==> r.value == Get(j, k)
  {
    if j.Null? then Err("TypeError: cannot read properties of null") else Ok(Get(j, k))
  }

  /** `o[k]` where `o` is itself a property read: reading from `undefined`
      or `null` throws a TypeError. */
  function Read(o: Option<Json>, k: string): (r: Result<Option<Json>>)
    ensures r.Err? <==> o.None? || o.value.Null?
    ensures r.Ok? ==> r.value == Get(o.value, k)
  {
    if o.None? then Err("TypeError: cannot read properties of undefined")
    else Member(o.value, k)
  }

  /** `x || dflt` on a property read. */
  function Or(x: Option<Json>, dflt: Json): (r: Json)
    ensures Truthy(dflt) ==> Truthy(r)
  {
    if TruthyOpt(x) then x.value else dflt
  }

  /** The entries of an object; other values have none that are modelled. */
  function Entries(j: Json): seq<Entry>
  {
    if j.Obj? then j.entries else []
  }

  /** `obj[k] = v`: overwrites the entry in place, or appends a new one. */
  function Put(es: seq<Entry>, k: string, v: Json): (r: seq<Entry>)
    ensures Lookup(r, k) == Some(v)
    ensures forall k' :: k' != k ==> Lookup(r, k') == Lookup(es, k')
    decreases |es|
  {
    if es == [] then [Entry(k, v)]
    else if es[0].key == k then [Entry(k, v)] + es[1..]
    else [es[0]] + Put(es[1..], k, v)
  }

  /** Overwriting keeps the key order; a new key goes last. */
  lemma {:induction false} PutKeys(es: seq<Entry>, k: string, v: Json)
    ensures k in Keys(es) ==> Keys(Put(es, k, v)) == Keys(es)
    ensures k !in Keys(es) ==> Keys(Put(es, k, v)) == Keys(es) + [k]
    decreases |es|
  {
    if es != [] && es[0].key != k {
      PutKeys(es[1..], k, v);
    }
  }

  /** Every entry of `Put(es, k, v)` is the new entry or one of `es`. */
  lemma {:induction false} PutEntries(es: seq<Entry>, k: string, v: Json)
    ensures forall e :: e in Put(es, k, v) ==> e == Entry(k, v) || e in es
    decreases |es|
  {
    if es != [] && es[0].key != k {
      PutEntries(es[1..], k, v);
    }
  }

  /** `delete obj[k]`. */
  function Remove(es: seq<Entry>, k: string): (r: seq<Entry>)
    ensures Lookup(r, k) == None
    ensures forall k' :: k' != k ==> Lookup(r, k') == Lookup(es, k')
    ensures forall e :: e in r <==> e in es && e.key != k
    decreases |es|
  {
    if es == [] then []
    else if es[0].key == k then Remove(es[1..], k)
    else [es[0]] + Remove(es[1..], k)
  }

  lemma PutKeepsUnique(es: seq<Entry>, k: string, v: Json)
    requires UniqueKeys(es)
    ensures UniqueKeys(Put(es, k, v))
  {
    var ks := Keys(es);
    PutKeys(es, k, v);
    if k !in ks {
      assert Keys(Put(es, k, v)) == ks + [k];
    }
  }

  /** Writing a key leaves exactly the old keys and that key. */
  lemma PutKeySet(es: seq<Entry>, k: string, v: Json)
    ensures forall x :: x in Keys(Put(es, k, v)) <==> x in Keys(es) || x == k
  {
    PutKeys(es, k, v);
  }

  lemma KeysSnoc(es: seq<Entry>, e: Entry)
    ensures Keys(es + [e]) == Keys(es) + [e.key]
  {
  }

  /** The entries `r` have unique keys, and these are exactly the keys of
      `es`. */
  ghost predicate NamedAfter(r: seq<Entry>, es: seq<Entry>)
  {
    UniqueKeys(r) && forall k :: k in Keys(r) <==> k in Keys(es)
  }

  /** Writing the next entry's key keeps the written keys those of the
      entries seen so far. */
  lemma PutNamedAfter(acc: seq<Entry>, es: seq<Entry>, n: nat, v: Json)
    requires 0 < n <= |es| && NamedAfter(acc, es[..n - 1])
    ensures NamedAfter(Put(acc, es[n - 1].key, v), es[..n])
  {
    PutKeySet(acc, es[n - 1].key, v);
    PutKeepsUnique(acc, es[n - 1].key, v);
    PrefixSnoc(es, n);
    KeysSnoc(es[..n - 1], es[n - 1]);
  }

  // ---------------------------------------------------------------------
  // Writing one formatted value per entry: `for (const [k, v] of
  // Object.entries(xs)) out[k] = f(v)`, where `f` may throw.

  /** `out` after the first `n` entries, or the first error `f` throws. */
  function PutEach(f: Json -> Result<Json>, es: seq<Entry>, n: nat): Result<seq<Entry>>
    requires n <= |es|
  {
    if n == 0 then Ok([]) else PutResult(PutEach(f, es, n - 1), es[n - 1].key, f(es[n - 1].value))
  }

  /** One turn: a failed fold stays failed, then a failed value fails it. */
  function PutResult(acc: Result<seq<Entry>>, k: string, v: Result<Json>): (r: Result<seq<Entry>>)
    ensures r.Ok? <==> acc.Ok? && v.Ok?
  {
    if acc.Err? then acc
    else if v.Err? then Err(v.error)
    else Ok(Put(acc.value, k, v.value))
  }

  /** Once a value fails, the fold keeps that error. */
  lemma {:induction false} PutEachErrStays(f: Json -> Result<Json>, es: seq<Entry>, n: nat, m: nat)
    requires n <= m <= |es| && PutEach(f, es, n).Err?
    ensures PutEach(f, es, m) == PutEach(f, es, n)
    decreases m - n
  {
    if n < m {
      PutEachErrStays(f, es, n, m - 1);
    }
  }

  /** A turn after `n` entries without failure. */
  lemma PutEachStep(f: Json -> Result<Json>, es: seq<Entry>, n: nat, acc: seq<Entry>)
    requires n < |es| && PutEach(f, es, n) == Ok(acc)
    ensures PutEach(f, es, n + 1) == PutResult(Ok(acc), es[n].key, f(es[n].value))
  {
  }

  /** A fold that has not failed after `n` entries had not failed before,
      and its last turn wrote entry `n - 1`. */
  lemma PutEachBefore(f: Json -> Result<Json>, es: seq<Entry>, n: nat) returns (acc: seq<Entry>)
    requires 0 < n <= |es| && PutEach(f, es, n).Ok?
    ensures PutEach(f, es, n - 1) == Ok(acc) && f(es[n - 1].value).Ok?
    ensures PutEach(f, es, n) == Ok(Put(acc, es[n - 1].key, f(es[n - 1].value).value))
  {
    acc := PutEach(f, es, n - 1).value;
  }

  /** The keys written are exactly those of the entries, each once. */
  lemma {:induction false} PutEachNamed(f: Json -> Result<Json>, es: seq<Entry>, n: nat)
    requires n <= |es|
    ensures PutEach(f, es, n).Ok? ==> NamedAfter(PutEach(f, es, n).value, es[..n])
    decreases n
  {
    if n > 0 {
      PutEachNamed(f, es, n - 1);
      if PutEach(f, es, n).Ok? {
        var acc := PutEachBefore(f, es, n);
        PutNamedAfter(acc, es, n, f(es[n - 1].value).value);
      }
    }
  }

  /** Each of the first `n` values formats without failure, and `r` holds
      it under its entry's key. */
  ghost predicate EachWritten(f: Json -> Result<Json>, r: seq<Entry>, es: seq<Entry>, n: nat)
    requires n <= |es|
  {
    forall i :: 0 <= i < n ==> f(es[i].value).Ok? && Lookup(r, es[i].key) == Some(f(es[i].value).value)
  }

  /** With distinct keys, each entry's key holds its own formatted value. */
  lemma {:induction false} PutEachLookup(f: Json -> Result<Json>, es: seq<Entry>, n: nat)
    requires n <= |es| && UniqueKeys(es[..n])
    ensures PutEach(f, es, n).Ok? ==> EachWritten(f, PutEach(f, es, n).value, es, n)
    decreases n
  {
    if n > 0 {
      UniquePrefix(es, n);
      PutEachLookup(f, es, n - 1);
      if PutEach(f, es, n).Ok? {
        var acc := PutEachBefore(f, es, n);
        WrittenStep(f, acc, es, n);
      }
    }
  }

  lemma WrittenStep(f: Json -> Result<Json>, acc: seq<Entry>, es: seq<Entry>, n: nat)
    requires 0 < n <= |es| && UniqueKeys(es[..n])
    requires EachWritten(f, acc, es, n - 1) && f(es[n - 1].value).Ok?
    ensures EachWritten(f, Put(acc, es[n - 1].key, f(es[n - 1].value).value), es, n)
  {
    forall i | 0 <= i < n - 1
      ensures es[i].key != es[n - 1].key
    {
      assert Keys(es[..n])[i] == es[i].key;
      assert Keys(es[..n])[n - 1] == es[n - 1].key;
    }
  }

  /** A prefix of entries with distinct keys has distinct keys. */
  lemma UniquePrefix(es: seq<Entry>, n: nat)
    requires 0 < n <= |es| && UniqueKeys(es[..n])
    ensures UniqueKeys(es[..n - 1])
  {
    var init := es[..n - 1];
    forall i, j | 0 <= i < j < |init|
      ensures Keys(init)[i] != Keys(init)[j]
    {
      assert Keys(es[..n])[i] == Keys(init)[i] && Keys(es[..n])[j] == Keys(init)[j];
    }
  }
}
