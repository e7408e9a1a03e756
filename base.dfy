/** Option and Result wrappers shared by every module of the model.
    `Result` stands for a JavaScript call that either returns a value or throws
    (a TypeError on a malformed document, or an explicit `throw new Error`). */
module Base {

  datatype Option<+T> = None | Some(value: T)

  datatype Result<+T> = Ok(value: T) | Err(error: string) {
    predicate IsFailure() { Err? }

    function PropagateFailure<U>(): Result<U>
      requires Err?
    {
      Err(error)
    }

    function Extract(): T
      requires Ok?
    {
      value
    }
  }

  /** A JavaScript `Set` as the sequence of its elements in insertion order. */
  predicate NoDup<T(==)>(xs: seq<T>)
  {
    forall i, j :: 0 <= i < j < |xs| ==> xs[i] != xs[j]
  }

  function Elems<T>(xs: seq<T>): set<T>
  {
    set z | z in xs
  }

  /** A prefix one longer is the shorter prefix and one more element. */
  lemma PrefixSnoc<T>(xs: seq<T>, n: nat)
    requires 0 < n <= |xs|
    ensures xs[..n] == xs[..n - 1] + [xs[n - 1]]
  {
  }

  /** A proper subset is smaller. */
  lemma ProperSubsetSmaller<T>(a: set<T>, b: set<T>)
    requires a < b
    ensures |a| < |b|
  {
    var d := b - a;
    assert d != {};
    var x :| x in d;
    assert b == a + d && a * d == {};
    assert {x} <= d;
  }

  /** `set.add(x)`: appends `x` unless it is already present. */
  function SetAdd<T(==,!new)>(xs: seq<T>, x: T): (r: seq<T>)
    ensures forall z :: z in r <==> z in xs || z == x
  {
    if x in xs then xs else xs + [x]
  }

  /** `for (const x of ys) set.add(x)`. */
  function SetAddAll<T(==,!new)>(xs: seq<T>, ys: seq<T>): (r: seq<T>)
    ensures forall z :: z in r <==> z in xs || z in ys
    decreases |ys|
  {
    if ys == [] then xs
    else SetAdd(SetAddAll(xs, ys[..|ys| - 1]), ys[|ys| - 1])
  }

  lemma SetAddNoDup<T(!new)>(xs: seq<T>, x: T)
    requires NoDup(xs)
    ensures NoDup(SetAdd(xs, x))
  {
  }

  lemma {:induction false} SetAddAllNoDup<T(!new)>(xs: seq<T>, ys: seq<T>)
    requires NoDup(xs)
    ensures NoDup(SetAddAll(xs, ys))
    decreases |ys|
  {
    if ys != [] {
      SetAddAllNoDup(xs, ys[..|ys| - 1]);
      SetAddNoDup(SetAddAll(xs, ys[..|ys| - 1]), ys[|ys| - 1]);
    }
  }

  /** `for (const x of ys) set.add(x)` as a loop. */
  method AddEach<T(==,!new)>(xs: seq<T>, ys: seq<T>) returns (r: seq<T>)
    ensures r == SetAddAll(xs, ys)
  {
    r := xs;
    var k := 0;
    while k < |ys|
      invariant 0 <= k <= |ys|
      invariant r == SetAddAll(xs, ys[..k])
    {
      assert ys[..k + 1][..k] == ys[..k];
      r := SetAdd(r, ys[k]);
      k := k + 1;
    }
    assert ys[..k] == ys;
  }

  /** `for (const k of order) if (k in m) m[k] = f(m[k])` over the first `n`
      names, stopping at the first call that throws. */
  function UpdateEach<K(==), V>(f: V -> Result<V>, m: map<K, V>, order: seq<K>, n: nat): (r: Result<map<K, V>>)
    requires n <= |order|
    ensures r.Ok? ==> r.value.Keys == m.Keys
  {
    if n == 0 then Ok(m)
    else match UpdateEach(f, m, order, n - 1)
      case Err(e) => Err(e)
      case Ok(prev) =>
        var k := order[n - 1];
        if k in prev then
          match f(prev[k])
          case Err(e) => Err(e)
          case Ok(v) => Ok(prev[k := v])
        else Ok(prev)
  }

  lemma {:induction false} UpdateEachErrStays<K, V>(f: V -> Result<V>, m: map<K, V>, order: seq<K>, i: nat, n: nat)
    requires i <= n <= |order|
    requires UpdateEach(f, m, order, i).Err?
    ensures UpdateEach(f, m, order, n) == UpdateEach(f, m, order, i)
    decreases n
  {
    if n > i {
      UpdateEachErrStays(f, m, order, i, n - 1);
    }
  }

  /** The `i`-th name is a key whose call throws. */
  ghost predicate FailsAt<K, V>(f: V -> Result<V>, m: map<K, V>, order: seq<K>, i: int)
  {
    0 <= i < |order| && order[i] in m && f(m[order[i]]).Err?
  }

  /** The last of the first `n` names is not among the others. */
  lemma LastFresh<K>(order: seq<K>, n: nat)
    requires NoDup(order) && 0 < n <= |order|
    ensures order[n - 1] !in order[..n - 1]
    ensures forall k :: k !in order[..n] ==> k !in order[..n - 1]
  {
    assert order[..n] == order[..n - 1] + [order[n - 1]];
  }

  /** With every name once in the order, the first `n` names are each
      updated once, from their value before the loop, and the rest keep
      theirs. */
  lemma {:induction false} UpdateEachOk<K, V>(f: V -> Result<V>, m: map<K, V>, order: seq<K>, n: nat)
    requires NoDup(order) && n <= |order|
    ensures UpdateEach(f, m, order, n).Ok? ==>
              (forall i :: 0 <= i < n && order[i] in m ==> f(m[order[i]]) == Ok(UpdateEach(f, m, order, n).value[order[i]]))
              && (forall k :: k in m && k !in order[..n] ==> UpdateEach(f, m, order, n).value[k] == m[k])
    decreases n
  {
    if n > 0 && UpdateEach(f, m, order, n).Ok? {
      UpdateEachOk(f, m, order, n - 1);
      LastFresh(order, n);
      var k := order[n - 1];
      var prev := UpdateEach(f, m, order, n - 1).value;
      if k in prev {
        assert prev[k] == m[k];
      }
      forall i | 0 <= i < n - 1 && order[i] in m
        ensures order[i] != k
      {}
    }
  }

  /** With every name once in the order, the loop throws exactly when the
      call on one of the first `n` names does. */
  lemma {:induction false} UpdateEachFails<K, V>(f: V -> Result<V>, m: map<K, V>, order: seq<K>, n: nat)
    requires NoDup(order) && n <= |order|
    ensures UpdateEach(f, m, order, n).Err? <==> exists i :: 0 <= i < n && FailsAt(f, m, order, i)
    decreases n
  {
    if n > 0 {
      UpdateEachFails(f, m, order, n - 1);
      match UpdateEach(f, m, order, n - 1)
      case Err(_) =>
        var i :| 0 <= i < n - 1 && FailsAt(f, m, order, i);
        assert 0 <= i < n && FailsAt(f, m, order, i);
      case Ok(prev) =>
        UpdateEachOk(f, m, order, n - 1);
        LastFresh(order, n);
        var k := order[n - 1];
        if FailsAt(f, m, order, n - 1) {
          assert prev[k] == m[k];
        } else {
          forall i | 0 <= i < n
            ensures !FailsAt(f, m, order, i)
          {
          }
        }
    }
  }

  /** `for (const x of xs) out.push(...f(x))` over the first `n` elements,
      stopping at the first call that throws. */
  function ConcatEach<T, U>(f: T -> Result<seq<U>>, xs: seq<T>, n: nat): Result<seq<U>>
    requires n <= |xs|
  {
    if n == 0 then Ok([])
    else
      var prev := ConcatEach(f, xs, n - 1);
      if prev.Err? then prev
      else
        var more := f(xs[n - 1]);
        if more.Err? then more else Ok(prev.value + more.value)
  }

  lemma ConcatEachStep<T, U>(f: T -> Result<seq<U>>, xs: seq<T>, i: nat, acc: seq<U>)
    requires i < |xs| && ConcatEach(f, xs, i) == Ok(acc)
    ensures f(xs[i]).Err? ==> ConcatEach(f, xs, i + 1) == f(xs[i])
    ensures f(xs[i]).Ok? ==> ConcatEach(f, xs, i + 1) == Ok(acc + f(xs[i]).value)
  {
  }

  lemma {:induction false} ConcatEachErrStays<T, U>(f: T -> Result<seq<U>>, xs: seq<T>, i: nat, n: nat)
    requires i <= n <= |xs|
    requires ConcatEach(f, xs, i).Err?
    ensures ConcatEach(f, xs, n) == ConcatEach(f, xs, i)
    decreases n
  {
    if n > i {
      ConcatEachErrStays(f, xs, i, n - 1);
    }
  }

  /** A loop that updates a state with each of the first `n` elements,
      stopping at the first step that throws. */
  function FoldEach<S, T>(step: (S, T) -> Result<S>, init: S, xs: seq<T>, n: nat): Result<S>
    requires n <= |xs|
  {
    if n == 0 then Ok(init)
    else
      var acc := FoldEach(step, init, xs, n - 1);
      if acc.Err? then acc else step(acc.value, xs[n - 1])
  }

  lemma {:induction false} FoldEachErrStays<S, T>(step: (S, T) -> Result<S>, init: S, xs: seq<T>, i: nat, n: nat)
    requires i <= n <= |xs|
    requires FoldEach(step, init, xs, i).Err?
    ensures FoldEach(step, init, xs, n) == FoldEach(step, init, xs, i)
    decreases n
  {
    if n > i {
      FoldEachErrStays(step, init, xs, i, n - 1);
    }
  }

  lemma FoldEachStep<S, T>(step: (S, T) -> Result<S>, init: S, xs: seq<T>, i: nat, acc: S)
    requires i < |xs| && FoldEach(step, init, xs, i) == Ok(acc)
    ensures FoldEach(step, init, xs, i + 1) == step(acc, xs[i])
  {
  }

  /** `xs.map(f)` over the first `n` elements, where `f` may throw: the
      first call that throws ends the loop. */
  function MapEach<T, U>(f: T -> Result<U>, xs: seq<T>, n: nat): Result<seq<U>>
    requires n <= |xs|
  {
    if n == 0 then Ok([])
    else
      var ys :- MapEach(f, xs, n - 1);
      var y :- f(xs[n - 1]);
      Ok(ys + [y])
  }

  /** The element at `i` is the first of the first `n` on which `f` throws. */
  ghost predicate FirstThrows<T, U>(f: T -> Result<U>, xs: seq<T>, i: int, n: nat)
  {
    0 <= i < n <= |xs| && f(xs[i]).Err? && forall q :: 0 <= q < i ==> f(xs[q]).Ok?
  }

  /** `r` holds `f` of each of the first `n` elements, in order, or the
      error of the first element on which `f` throws. */
  ghost predicate MappedExactly<T, U>(r: Result<seq<U>>, f: T -> Result<U>, xs: seq<T>, n: nat)
    requires n <= |xs|
  {
    (r.Ok? <==> forall i :: 0 <= i < n ==> f(xs[i]).Ok?) &&
    (r.Ok? ==> |r.value| == n && forall i :: 0 <= i < n ==> r.value[i] == f(xs[i]).value) &&
    (r.Err? ==> exists i :: FirstThrows(f, xs, i, n) && r == Err(f(xs[i]).error))
  }

  lemma {:induction false} MapEachExact<T, U>(f: T -> Result<U>, xs: seq<T>, n: nat)
    requires n <= |xs|
    ensures MappedExactly(MapEach(f, xs, n), f, xs, n)
  {
    if n > 0 {
      MapEachExact(f, xs, n - 1);
      MapEachStep(f, xs, n);
    }
  }

  lemma MapEachStep<T, U>(f: T -> Result<U>, xs: seq<T>, n: nat)
    requires 0 < n <= |xs|
    ensures MappedExactly(MapEach(f, xs, n - 1), f, xs, n - 1) ==> MappedExactly(MapEach(f, xs, n), f, xs, n)
  {
    var prev := MapEach(f, xs, n - 1);
    if !MappedExactly(prev, f, xs, n - 1) {
    } else if prev.Err? {
      var i :| FirstThrows(f, xs, i, n - 1) && prev == Err(f(xs[i]).error);
      assert FirstThrows(f, xs, i, n);
    } else if f(xs[n - 1]).Err? {
      assert FirstThrows(f, xs, n - 1, n);
    } else {
      assert MapEach(f, xs, n).value == prev.value + [f(xs[n - 1]).value];
    }
  }

  lemma {:induction false} MapEachErrStays<T, U>(f: T -> Result<U>, xs: seq<T>, i: nat, n: nat)
    requires i <= n <= |xs| && MapEach(f, xs, i).Err?
    ensures MapEach(f, xs, n) == MapEach(f, xs, i)
    decreases n
  {
    if n > i {
      MapEachErrStays(f, xs, i, n - 1);
    }
  }
}
