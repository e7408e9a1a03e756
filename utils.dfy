/** `camelToSnake` in `src/utils.js`: two global regular-expression
    replacements followed by `toLowerCase()`. */
module Utils {
  import opened Text

  predicate IsLowerOrDigit(c: char) { IsLower(c) || IsDigit(c) }

  /** The length of the run of lower-case letters at the start of `s`. */
  function LowerRun(s: string): (k: nat)
    ensures k <= |s|
    ensures forall i :: 0 <= i < k ==> IsLower(s[i])
    ensures k < |s| ==> !IsLower(s[k])
    decreases |s|
  {
    if s != [] && IsLower(s[0]) then 1 + LowerRun(s[1..]) else 0
  }

  /** `s.replace(/([a-z0-9])([A-Z][a-z]+)/g, '$1_$2')`: matches are tried at
      each position from the left; a match takes the lower-case run after the
      capital greedily, and the search resumes after it. */
  function Pass1(s: string): string
    decreases |s|
  {
    if |s| >= 3 && IsLowerOrDigit(s[0]) && IsUpper(s[1]) && IsLower(s[2]) then
      var k := 1 + LowerRun(s[3..]);
      [s[0], '_', s[1]] + s[2..2 + k] + Pass1(s[2 + k..])
    else if s == [] then []
    else [s[0]] + Pass1(s[1..])
  }

  /** `s.replace(/([a-z0-9])([A-Z])/g, '$1_$2')`. */
  function Pass2(s: string): string
    decreases |s|
  {
    if |s| >= 2 && IsLowerOrDigit(s[0]) && IsUpper(s[1]) then
      [s[0], '_', s[1]] + Pass2(s[2..])
    else if s == [] then []
    else [s[0]] + Pass2(s[1..])
  }

  /** `camelToSnake(name)`. */
  function CamelToSnake(s: string): (r: string)
    ensures !HasUpper(r)
  {
    ToLowerNoUpper(Pass2(Pass1(s)));
    ToLower(Pass2(Pass1(s)))
  }

  /** `o` is `s` with some `_` characters inserted. */
  predicate UnderscoresAdded(o: string, s: string)
    decreases |o|
  {
    if o == [] then s == []
    else (s != [] && o[0] == s[0] && UnderscoresAdded(o[1..], s[1..]))
         || (o[0] == '_' && UnderscoresAdded(o[1..], s))
  }

  function CountChar(s: string, c: char): nat
    decreases |s|
  {
    if s == [] then 0 else (if s[0] == c then 1 else 0) + CountChar(s[1..], c)
  }

  lemma {:induction false} AddedRefl(s: string)
    ensures UnderscoresAdded(s, s)
    decreases |s|
  {
    if s != [] {
      AddedRefl(s[1..]);
    }
  }

  lemma {:induction false} AddedAppend(o1: string, s1: string, o2: string, s2: string)
    requires UnderscoresAdded(o1, s1) && UnderscoresAdded(o2, s2)
    ensures UnderscoresAdded(o1 + o2, s1 + s2)
    decreases |o1|
  {
    if o1 == [] {
      assert o1 + o2 == o2 && s1 + s2 == s2;
    } else {
      assert (o1 + o2)[1..] == o1[1..] + o2;
      if s1 != [] && o1[0] == s1[0] && UnderscoresAdded(o1[1..], s1[1..]) {
        AddedAppend(o1[1..], s1[1..], o2, s2);
        assert (s1 + s2)[1..] == s1[1..] + s2;
      } else {
        AddedAppend(o1[1..], s1, o2, s2);
      }
    }
  }

  lemma {:induction false} AddedTrans(o: string, m: string, s: string)
    requires UnderscoresAdded(o, m) && UnderscoresAdded(m, s)
    ensures UnderscoresAdded(o, s)
    decreases |o|
  {
    if o != [] {
      if m != [] && o[0] == m[0] && UnderscoresAdded(o[1..], m[1..]) {
        if s != [] && m[0] == s[0] && UnderscoresAdded(m[1..], s[1..]) {
          AddedTrans(o[1..], m[1..], s[1..]);
        } else {
          AddedTrans(o[1..], m[1..], s);
        }
      } else {
        AddedTrans(o[1..], m, s);
      }
    }
  }

  lemma {:induction false} AddedLower(o: string, s: string)
    requires UnderscoresAdded(o, s)
    ensures UnderscoresAdded(ToLower(o), ToLower(s))
    decreases |o|
  {
    if o != [] {
      assert ToLower(o)[1..] == ToLower(o[1..]);
      if s != [] && o[0] == s[0] && UnderscoresAdded(o[1..], s[1..]) {
        AddedLower(o[1..], s[1..]);
        assert ToLower(s)[1..] == ToLower(s[1..]);
      } else {
        AddedLower(o[1..], s);
      }
    }
  }

  /** Inserting underscores only adds characters. */
  lemma {:induction false} AddedLength(o: string, s: string)
    requires UnderscoresAdded(o, s)
    ensures |o| == |s| + CountChar(o, '_') - CountChar(s, '_')
    ensures CountChar(o, '_') >= CountChar(s, '_')
    decreases |o|
  {
    if o != [] {
      if s != [] && o[0] == s[0] && UnderscoresAdded(o[1..], s[1..]) {
        AddedLength(o[1..], s[1..]);
      } else {
        AddedLength(o[1..], s);
      }
    }
  }

  lemma {:induction false} Pass1Added(s: string)
    ensures UnderscoresAdded(Pass1(s), s)
    decreases |s|
  {
    if |s| >= 3 && IsLowerOrDigit(s[0]) && IsUpper(s[1]) && IsLower(s[2]) {
      var k := 1 + LowerRun(s[3..]);
      var w := s[2..2 + k];
      Pass1Added(s[2 + k..]);
      AddedRefl(w);
      assert UnderscoresAdded([s[1]] + w, [s[1]] + w) by { AddedRefl([s[1]] + w); }
      assert UnderscoresAdded(['_', s[1]] + w, [s[1]] + w);
      assert UnderscoresAdded([s[0], '_', s[1]] + w, [s[0], s[1]] + w) by {
        assert ([s[0], '_', s[1]] + w)[1..] == ['_', s[1]] + w;
        assert ([s[0], s[1]] + w)[1..] == [s[1]] + w;
      }
      AddedAppend([s[0], '_', s[1]] + w, [s[0], s[1]] + w, Pass1(s[2 + k..]), s[2 + k..]);
      assert ([s[0], s[1]] + w) + s[2 + k..] == s;
    } else if s != [] {
      Pass1Added(s[1..]);
    }
  }

  lemma {:induction false} Pass2Added(s: string)
    ensures UnderscoresAdded(Pass2(s), s)
    decreases |s|
  {
    if |s| >= 2 && IsLowerOrDigit(s[0]) && IsUpper(s[1]) {
      Pass2Added(s[2..]);
      var o := [s[0], '_', s[1]] + Pass2(s[2..]);
      assert o[1..][1..] == [s[1]] + Pass2(s[2..]);
      assert s[1..][1..] == s[2..];
      assert UnderscoresAdded(o[1..][1..], s[1..]);
    } else if s != [] {
      Pass2Added(s[1..]);
    }
  }

  /** camelToSnake removes no character: its result is the lower-cased input
      with underscores inserted, so it is longer by the number of underscores
      it adds. */
  lemma CamelToSnakeInserts(s: string)
    ensures UnderscoresAdded(CamelToSnake(s), ToLower(s))
    ensures |CamelToSnake(s)| == |s| + CountChar(CamelToSnake(s), '_') - CountChar(ToLower(s), '_')
  {
    Pass1Added(s);
    Pass2Added(Pass1(s));
    AddedTrans(Pass2(Pass1(s)), Pass1(s), s);
    AddedLower(Pass2(Pass1(s)), s);
    AddedLength(CamelToSnake(s), ToLower(s));
  }

  lemma {:induction false} Pass1NoUpper(s: string)
    requires !HasUpper(s)
    ensures Pass1(s) == s
    decreases |s|
  {
    if s != [] {
      assert !IsUpper(s[0]);
      assert !HasUpper(s[1..]) by {
        forall i | 0 <= i < |s[1..]| ensures !IsUpper(s[1..][i]) {
          assert s[1..][i] == s[i + 1];
        }
      }
      Pass1NoUpper(s[1..]);
      assert |s| >= 2 ==> !IsUpper(s[1]);
    }
  }

  lemma {:induction false} Pass2NoUpper(s: string)
    requires !HasUpper(s)
    ensures Pass2(s) == s
    decreases |s|
  {
    if s != [] {
      assert !HasUpper(s[1..]) by {
        forall i | 0 <= i < |s[1..]| ensures !IsUpper(s[1..][i]) {
          assert s[1..][i] == s[i + 1];
        }
      }
      Pass2NoUpper(s[1..]);
      assert |s| >= 2 ==> !IsUpper(s[1]);
    }
  }

  /** A name without capitals is returned unchanged. */
  lemma CamelToSnakeNoUpper(s: string)
    requires !HasUpper(s)
    ensures CamelToSnake(s) == s
  {
    Pass1NoUpper(s);
    Pass2NoUpper(s);
    ToLowerIdentity(s);
  }

  /** camelToSnake is idempotent. */
  lemma CamelToSnakeIdempotent(s: string)
    ensures CamelToSnake(CamelToSnake(s)) == CamelToSnake(s)
  {
    CamelToSnakeNoUpper(CamelToSnake(s));
  }

  /** One camel-case hump: `a` then a lower-case letter or digit, a capital,
      and a run of lower-case letters, becomes `a`, the letter or digit, `_`,
      the capital lower-cased and the run (`operationId` gives
      `operation_id`). */
  lemma CamelHump(a: string, x: char, u: char, w: string)
    requires !HasUpper(a) && IsLowerOrDigit(x) && IsUpper(u)
    requires |w| > 0 && forall i :: 0 <= i < |w| ==> IsLower(w[i])
    ensures CamelToSnake(a + [x, u] + w) == a + [x, '_', LowerChar(u)] + w
  {
    HumpPass1(a, x, u, w);
    var t := [x, '_', u] + w;
    assert a + [x, '_', u] + w == a + t;
    HumpPass2(a, t);
    HumpTail(x, u, w);
    HumpLower(a, x, u, w);
  }

  lemma HumpTail(x: char, u: char, w: string)
    requires IsUpper(u)
    requires forall i :: 0 <= i < |w| ==> IsLower(w[i])
    ensures Pass2([x, '_', u] + w) == [x, '_', u] + w
  {
    LowerNoUpper(w);
    Pass2NoUpper(w);
    var t1 := [u] + w;
    Pass2Fixed(u, w);
    var t2 := ['_'] + t1;
    Pass2Fixed('_', t1);
    Pass2Fixed(x, t2);
    ConsThree(x, u, w);
  }

  lemma ConsThree(x: char, u: char, w: string)
    ensures [x] + (['_'] + ([u] + w)) == [x, '_', u] + w
  {
  }

  lemma Pass2Fixed(c: char, rest: string)
    requires Pass2(rest) == rest
    requires !IsLowerOrDigit(c) || rest == [] || !IsUpper(rest[0])
    ensures Pass2([c] + rest) == [c] + rest
  {
    Pass2Keep(c, rest);
  }

  lemma LowerNoUpper(w: string)
    requires forall i :: 0 <= i < |w| ==> IsLower(w[i])
    ensures !HasUpper(w)
  {
    forall i | 0 <= i < |w| ensures !IsUpper(w[i]) {
      assert IsLower(w[i]);
    }
  }

  /** Pass2 copies a character that does not start a match. */
  lemma Pass2Keep(c: char, rest: string)
    requires !IsLowerOrDigit(c) || rest == [] || !IsUpper(rest[0])
    ensures Pass2([c] + rest) == [c] + Pass2(rest)
  {
    assert ([c] + rest)[1..] == rest;
  }

  lemma HumpLower(a: string, x: char, u: char, w: string)
    requires !HasUpper(a) && IsLowerOrDigit(x)
    requires forall i :: 0 <= i < |w| ==> IsLower(w[i])
    ensures ToLower(a + [x, '_', u] + w) == a + [x, '_', LowerChar(u)] + w
  {
    var o := a + [x, '_', u] + w;
    forall i | 0 <= i < |o| ensures ToLower(o)[i] == (a + [x, '_', LowerChar(u)] + w)[i] {
      if i < |a| {
        assert o[i] == a[i] && !IsUpper(a[i]);
      } else if i >= |a| + 3 {
        assert o[i] == w[i - |a| - 3];
      }
    }
  }

  lemma {:induction false} HumpPass1(a: string, x: char, u: char, w: string)
    requires !HasUpper(a) && IsLowerOrDigit(x) && IsUpper(u)
    requires |w| > 0 && forall i :: 0 <= i < |w| ==> IsLower(w[i])
    ensures Pass1(a + [x, u] + w) == a + [x, '_', u] + w
    decreases |a|
  {
    var s := a + [x, u] + w;
    if a == [] {
      assert s == [x, u] + w;
      assert s[2] == w[0];
      assert LowerRun(s[3..]) == |w| - 1 by {
        assert s[3..] == w[1..];
        LowerRunAll(w[1..]);
      }
      assert s[2..2 + |w|] == w;
      assert s[2 + |w|..] == [];
    } else {
      assert !IsUpper(a[0]);
      assert !HasUpper(a[1..]) by {
        forall i | 0 <= i < |a[1..]| ensures !IsUpper(a[1..][i]) {
          assert a[1..][i] == a[i + 1];
        }
      }
      assert !IsUpper(s[1]) by {
        if |a| >= 2 { assert s[1] == a[1]; } else { assert s[1] == x; }
      }
      assert s[1..] == a[1..] + [x, u] + w;
      HumpPass1(a[1..], x, u, w);
    }
  }

  lemma {:induction false} LowerRunAll(w: string)
    requires forall i :: 0 <= i < |w| ==> IsLower(w[i])
    ensures LowerRun(w) == |w|
    decreases |w|
  {
    if w != [] {
      LowerRunAll(w[1..]);
    }
  }

  /** Pass2 leaves a capital-free prefix alone when the rest does not start
      with a capital. */
  lemma {:induction false} HumpPass2(a: string, t: string)
    requires !HasUpper(a)
    requires t != [] && !IsUpper(t[0])
    ensures Pass2(a + t) == a + Pass2(t)
    decreases |a|
  {
    if a == [] {
      assert a + t == t;
    } else {
      var s := a + t;
      assert s[0] == a[0] && [a[0]] + a[1..] == a;
      assert !HasUpper(a[1..]) by {
        forall i | 0 <= i < |a[1..]| ensures !IsUpper(a[1..][i]) {
          assert a[1..][i] == a[i + 1];
        }
      }
      assert !IsUpper(s[1]) by {
        if |a| >= 2 { assert s[1] == a[1]; } else { assert s[1] == t[0]; }
      }
      assert s[1..] == a[1..] + t;
      HumpPass2(a[1..], t);
    }
  }
}
