/** String operations the JavaScript source uses, restricted to ASCII:
    `split` on a character or a string, `join`, global `replace` of a character
    or of a fixed string, `startsWith`/`endsWith`, ASCII case mapping and the
    default ordering of `Array.prototype.sort` on strings. */
module Text {

  predicate IsUpper(c: char) { 'A' <= c <= 'Z' }
  predicate IsLower(c: char) { 'a' <= c <= 'z' }
  predicate IsDigit(c: char) { '0' <= c <= '9' }

  function LowerChar(c: char): char
  {
    if IsUpper(c) then (c as int + 32) as char else c
  }

  function UpperChar(c: char): char
  {
    if IsLower(c) then (c as int - 32) as char else c
  }

  /** `s.toLowerCase()` on ASCII text. */
  function ToLower(s: string): string
  {
    seq(|s|, i requires 0 <= i < |s| => LowerChar(s[i]))
  }

  predicate HasUpper(s: string)
  {
    exists i :: 0 <= i < |s| && IsUpper(s[i])
  }

  lemma ToLowerNoUpper(s: string)
    ensures !HasUpper(ToLower(s))
  {
  }

  lemma ToLowerIdentity(s: string)
    requires !HasUpper(s)
    ensures ToLower(s) == s
  {
  }

  /** `s.replace(/c/g, [d])`: every occurrence of the character `c` becomes `d`. */
  function MapChar(s: string, c: char, d: char): string
  {
    seq(|s|, i requires 0 <= i < |s| => if s[i] == c then d else s[i])
  }

  /** `s.replace(/c/g, rep)` for a replacement of any length. */
  function ReplaceChar(s: string, c: char, rep: string): string
    decreases |s|
  {
    if s == [] then []
    else (if s[0] == c then rep else [s[0]]) + ReplaceChar(s[1..], c, rep)
  }

  lemma {:induction false} ReplaceCharRemoves(s: string, c: char, rep: string, x: char)
    requires x !in rep
    requires x == c || x !in s
    ensures x !in ReplaceChar(s, c, rep)
    decreases |s|
  {
    if s != [] {
      ReplaceCharRemoves(s[1..], c, rep, x);
    }
  }

  predicate StartsWith(s: string, p: string)
  {
    |p| <= |s| && s[..|p|] == p
  }

  predicate EndsWith(s: string, p: string)
  {
    |p| <= |s| && s[|s| - |p|..] == p
  }

  lemma StartsWithConcat(a: string, b: string)
    ensures StartsWith(a + b, a)
  {
    assert (a + b)[..|a|] == a;
  }

  lemma EndsWithConcat(a: string, b: string)
    ensures EndsWith(a + b, b)
  {
    assert (a + b)[|a|..] == b;
  }

  lemma AppendFour(a: string, b: string, c: string, d: string)
    ensures a + b + c + d == a + (b + c + d)
  {
  }

  lemma StartsWithTrans(s: string, t: string, p: string)
    requires StartsWith(s, t) && StartsWith(t, p)
    ensures StartsWith(s, p)
  {
    assert s[..|p|] == s[..|t|][..|p|];
  }

  lemma StartsWithAppended(a: string, b: string, c: string)
    ensures StartsWith(a + (b + c), a + b)
  {
    assert a + (b + c) == (a + b) + c;
    StartsWithConcat(a + b, c);
  }

  /** `pat` occurs in `s` starting at position `i`. */
  predicate OccursAt(s: string, pat: string, i: nat)
  {
    i + |pat| <= |s| && s[i..i + |pat|] == pat
  }

  /** `pat` occurs in `s` at some position. */
  ghost predicate Occurs(s: string, pat: string)
  {
    exists i: nat :: OccursAt(s, pat, i)
  }

  lemma OccursMiddle(a: string, b: string, c: string)
    ensures OccursAt(a + b + c, b, |a|) && Occurs(a + b + c, b)
  {
    assert (a + b + c)[|a|..|a| + |b|] == b;
    assert OccursAt(a + b + c, b, |a|);
  }

  /** `s.replaceAll(pat, rep)` (or `replace(/pat/g, rep)` for a literal
      pattern): occurrences are taken left to right without overlap. */
  function ReplaceAll(s: string, pat: string, rep: string): string
    requires |pat| > 0
    decreases |s|
  {
    if |s| < |pat| then s
    else if s[..|pat|] == pat then rep + ReplaceAll(s[|pat|..], pat, rep)
    else [s[0]] + ReplaceAll(s[1..], pat, rep)
  }

  lemma {:induction false} ReplaceAllKeepsOut(s: string, pat: string, rep: string, x: char)
    requires |pat| > 0
    requires x !in s && x !in rep
    ensures x !in ReplaceAll(s, pat, rep)
    decreases |s|
  {
    if |s| >= |pat| {
      if s[..|pat|] == pat {
        ReplaceAllKeepsOut(s[|pat|..], pat, rep, x);
      } else {
        ReplaceAllKeepsOut(s[1..], pat, rep, x);
      }
    }
  }

  lemma {:induction false} ReplaceCharAbsent(s: string, c: char, rep: string)
    requires c !in s
    ensures ReplaceChar(s, c, rep) == s
    decreases |s|
  {
    if s != [] {
      ReplaceCharAbsent(s[1..], c, rep);
    }
  }

  lemma {:induction false} ReplaceCharAppend(a: string, b: string, c: char, rep: string)
    ensures ReplaceChar(a + b, c, rep) == ReplaceChar(a, c, rep) + ReplaceChar(b, c, rep)
    decreases |a|
  {
    if a != [] {
      assert (a + b)[0] == a[0] && (a + b)[1..] == a[1..] + b;
      ReplaceCharAppend(a[1..], b, c, rep);
      var h := if a[0] == c then rep else [a[0]];
      assert ReplaceChar(a + b, c, rep) == h + ReplaceChar(a[1..] + b, c, rep);
      assert ReplaceChar(a, c, rep) == h + ReplaceChar(a[1..], c, rep);
    } else {
      assert a + b == b;
    }
  }

  lemma ReplaceCharOne(c: char, d: char, rep: string)
    ensures ReplaceChar([c], d, rep) == if c == d then rep else [c]
  {
    assert [c][1..] == [];
  }

  /** With a one-character pattern, `replaceAll` is `ReplaceChar`. */
  lemma {:induction false} ReplaceAllOneChar(s: string, c: char, rep: string)
    ensures ReplaceAll(s, [c], rep) == ReplaceChar(s, c, rep)
    decreases |s|
  {
    if s != [] {
      ReplaceAllOneChar(s[1..], c, rep);
    }
  }

  /** Replacing every `c` by a text free of `c` leaves no `c`. */
  lemma ReplaceAllRemoves(s: string, c: char, rep: string)
    requires c !in rep
    ensures c !in ReplaceAll(s, [c], rep)
  {
    ReplaceAllOneChar(s, c, rep);
    ReplaceCharRemoves(s, c, rep, c);
  }

  /** `s.split(c)` for a one-character separator: never empty, and no part
      contains the separator. */
  function Split(s: string, c: char): (parts: seq<string>)
    ensures |parts| >= 1
    ensures forall i :: 0 <= i < |parts| ==> c !in parts[i]
    decreases |s|
  {
    if s == [] then [[]]
    else
      var rest := Split(s[1..], c);
      if s[0] == c then [[]] + rest
      else [[s[0]] + rest[0]] + rest[1..]
  }

  /** `parts.join(sep)`. */
  function Join(parts: seq<string>, sep: string): string
    decreases |parts|
  {
    if |parts| == 0 then []
    else if |parts| == 1 then parts[0]
    else parts[0] + sep + Join(parts[1..], sep)
  }

  /** `s.split(c).pop()`: the text after the last separator. */
  function LastSegment(s: string, c: char): string
  {
    var parts := Split(s, c);
    parts[|parts| - 1]
  }

  /** Splitting and joining on the same character gives the text back. */
  lemma {:induction false} SplitJoin(s: string, c: char)
    ensures Join(Split(s, c), [c]) == s
    decreases |s|
  {
    if s != [] {
      SplitJoin(s[1..], c);
      var rest := Split(s[1..], c);
      if s[0] != c && |rest| > 1 {
        assert Join(rest, [c]) == rest[0] + [c] + Join(rest[1..], [c]);
      }
    }
  }

  /** A prefix free of the separator becomes the head of the first part. */
  lemma {:induction false} SplitFreePrefix(a: string, t: string, c: char)
    requires c !in a
    ensures var r := Split(t, c);
            Split(a + t, c) == [a + r[0]] + r[1..]
    decreases |a|
  {
    var r := Split(t, c);
    if a != [] {
      var s := a + t;
      assert s != [] && s[0] == a[0] && s[0] != c;
      assert s[1..] == a[1..] + t;
      SplitFreePrefix(a[1..], t, c);
      var rest := Split(s[1..], c);
      assert rest == [a[1..] + r[0]] + r[1..];
      assert Split(s, c) == [[s[0]] + rest[0]] + rest[1..];
      assert [a[0]] + (a[1..] + r[0]) == a + r[0];
    } else {
      assert a + t == t;
      assert a + r[0] == r[0];
      assert r == [r[0]] + r[1..];
    }
  }

  lemma SplitNoSeparator(a: string, c: char)
    requires c !in a
    ensures Split(a, c) == [a]
  {
    SplitFreePrefix(a, [], c);
    assert a + [] == a;
  }

  /** `(a + c + b).split(c)` when `a` has no separator. */
  lemma SplitAt(a: string, b: string, c: char)
    requires c !in a
    ensures Split(a + [c] + b, c) == [a] + Split(b, c)
  {
    SplitFreePrefix(a, [c] + b, c);
    assert a + [c] + b == a + ([c] + b);
    assert ([c] + b)[1..] == b;
    assert Split([c] + b, c) == [[]] + Split(b, c);
    assert a + [] == a;
  }

  lemma SplitConsSeparator(t: string, c: char)
    ensures Split([c] + t, c) == [[]] + Split(t, c)
  {
    assert ([c] + t)[1..] == t;
  }

  lemma SplitConsOther(a: char, t: string, c: char)
    requires a != c
    ensures Split([a] + t, c) == [[a] + Split(t, c)[0]] + Split(t, c)[1..]
  {
    assert ([a] + t)[1..] == t;
  }

  /** Gluing a character onto the first part commutes with appending. */
  lemma GlueFirst(a: char, px: seq<string>, py: seq<string>)
    requires |px| >= 1
    ensures [[a] + (px + py)[0]] + (px + py)[1..] == ([[a] + px[0]] + px[1..]) + py
  {
    assert (px + py)[0] == px[0];
    assert (px + py)[1..] == px[1..] + py;
  }

  /** `(x + c + y).split(c)` is the split of `x` followed by that of `y`. */
  lemma {:induction false} SplitConcat(x: string, y: string, c: char)
    ensures Split(x + [c] + y, c) == Split(x, c) + Split(y, c)
    decreases |x|
  {
    if x == [] {
      SplitConsSeparator(y, c);
      assert x + [c] + y == [c] + y;
      assert Split(x, c) == [[]];
    } else {
      var a, rest := x[0], x[1..];
      var t := rest + [c] + y;
      SplitConcat(rest, y, c);
      assert x + [c] + y == [a] + t;
      assert x == [a] + rest;
      if a == c {
        SplitConsSeparator(t, c);
        SplitConsSeparator(rest, c);
      } else {
        SplitConsOther(a, t, c);
        SplitConsOther(a, rest, c);
        GlueFirst(a, Split(rest, c), Split(y, c));
      }
    }
  }

  /** `s.split(sep)` for a separator of one or more characters. */
  function SplitOn(s: string, sep: string): (parts: seq<string>)
    requires |sep| > 0
    ensures |parts| >= 1
    decreases |s|
  {
    if |s| < |sep| then [s]
    else if s[..|sep|] == sep then [[]] + SplitOn(s[|sep|..], sep)
    else
      var rest := SplitOn(s[1..], sep);
      [[s[0]] + rest[0]] + rest[1..]
  }

  /** `s.replace(pat, rep)` with a string pattern: only the first
      occurrence is replaced. */
  function ReplaceFirst(s: string, pat: string, rep: string): string
    requires |pat| > 0
    decreases |s|
  {
    if |s| < |pat| then s
    else if s[..|pat|] == pat then rep + s[|pat|..]
    else [s[0]] + ReplaceFirst(s[1..], pat, rep)
  }

  lemma {:induction false} SplitOnAbsent(s: string, sep: string)
    requires |sep| > 0
    requires !Occurs(s, sep)
    ensures SplitOn(s, sep) == [s]
    decreases |s|
  {
    if |s| >= |sep| {
      assert s[0..|sep|] == s[..|sep|];
      assert !OccursAt(s, sep, 0);
      assert !Occurs(s[1..], sep) by {
        forall i: nat | OccursAt(s[1..], sep, i)
          ensures false
        {
          assert s[1..][i..i + |sep|] == s[i + 1..i + 1 + |sep|];
          assert OccursAt(s, sep, i + 1);
        }
      }
      SplitOnAbsent(s[1..], sep);
      assert SplitOn(s, sep) == [[s[0]] + s[1..]];
      assert [s[0]] + s[1..] == s;
    }
  }

  /** No occurrence in `s` means none in its tail. */
  lemma NotOccursTail(s: string, pat: string)
    requires s != [] && !Occurs(s, pat)
    ensures !Occurs(s[1..], pat)
  {
    forall i: nat | OccursAt(s[1..], pat, i)
      ensures false
    {
      assert s[1..][i..i + |pat|] == s[i + 1..i + 1 + |pat|];
      assert OccursAt(s, pat, i + 1);
    }
  }

  /** Replacing a pattern that does not occur changes nothing. */
  lemma {:induction false} ReplaceAllAbsent(s: string, pat: string, rep: string)
    requires |pat| > 0 && !Occurs(s, pat)
    ensures ReplaceAll(s, pat, rep) == s
    decreases |s|
  {
    if |s| >= |pat| {
      assert s[0..|pat|] == s[..|pat|];
      assert !OccursAt(s, pat, 0);
      NotOccursTail(s, pat);
      ReplaceAllAbsent(s[1..], pat, rep);
      assert [s[0]] + s[1..] == s;
    }
  }

  lemma ReplaceAllHit(s: string, pat: string, rep: string)
    requires 0 < |pat| <= |s| && s[..|pat|] == pat
    ensures ReplaceAll(s, pat, rep) == rep + ReplaceAll(s[|pat|..], pat, rep)
  {
  }

  lemma ReplaceAllMiss(s: string, pat: string, rep: string)
    requires 0 < |pat| <= |s| && s[..|pat|] != pat
    ensures ReplaceAll(s, pat, rep) == [s[0]] + ReplaceAll(s[1..], pat, rep)
  {
  }

  /** A text shorter than the pattern, after its first character: the
      replacement copies that character. */
  lemma ReplaceAllShortCons(a: string, pat: string, rep: string)
    requires 0 < |a| < |pat|
    ensures ReplaceAll(a, pat, rep) == [a[0]] + ReplaceAll(a[1..], pat, rep)
  {
  }

  /** A character the pattern does not contain splits a replacement in two:
      no occurrence can span it. */
  lemma {:induction false} ReplaceAllCut(a: string, x: char, b: string, pat: string, rep: string)
    requires |pat| > 0 && x !in pat
    ensures ReplaceAll(a + [x] + b, pat, rep) == ReplaceAll(a, pat, rep) + [x] + ReplaceAll(b, pat, rep)
    decreases |a|
  {
    if a == [] {
      CutAt(x, b, pat, rep);
    } else if |a| >= |pat| && a[..|pat|] == pat {
      ReplaceAllCut(a[|pat|..], x, b, pat, rep);
      CutSkip(a, x, b, pat, rep);
    } else {
      ReplaceAllCut(a[1..], x, b, pat, rep);
      CutCopy(a, x, b, pat, rep);
    }
  }

  lemma CutAt(x: char, b: string, pat: string, rep: string)
    requires |pat| > 0 && x !in pat
    ensures ReplaceAll([] + [x] + b, pat, rep) == ReplaceAll([], pat, rep) + [x] + ReplaceAll(b, pat, rep)
  {
    var s := [x] + b;
    assert s[1..] == b;
    if |s| >= |pat| {
      assert s[..|pat|][0] == x;
      ReplaceAllMiss(s, pat, rep);
    }
  }

  lemma CutSkip(a: string, x: char, b: string, pat: string, rep: string)
    requires 0 < |pat| <= |a| && a[..|pat|] == pat
    requires ReplaceAll(a[|pat|..] + [x] + b, pat, rep) == ReplaceAll(a[|pat|..], pat, rep) + [x] + ReplaceAll(b, pat, rep)
    ensures ReplaceAll(a + [x] + b, pat, rep) == ReplaceAll(a, pat, rep) + [x] + ReplaceAll(b, pat, rep)
  {
    var s := a + [x] + b;
    assert s[..|pat|] == a[..|pat|];
    assert s[|pat|..] == a[|pat|..] + [x] + b;
    ReplaceAllHit(s, pat, rep);
    ReplaceAllHit(a, pat, rep);
    ConsAround(ReplaceAll(s, pat, rep), ReplaceAll(a, pat, rep), rep, ReplaceAll(a[|pat|..], pat, rep), [x],
               ReplaceAll(b, pat, rep));
  }

  lemma CutCopy(a: string, x: char, b: string, pat: string, rep: string)
    requires 0 < |pat| && 0 < |a| && x !in pat
    requires |a| < |pat| || a[..|pat|] != pat
    requires ReplaceAll(a[1..] + [x] + b, pat, rep) == ReplaceAll(a[1..], pat, rep) + [x] + ReplaceAll(b, pat, rep)
    ensures ReplaceAll(a + [x] + b, pat, rep) == ReplaceAll(a, pat, rep) + [x] + ReplaceAll(b, pat, rep)
  {
    CutFirstCopied(a, x, b, pat, rep);
    ConsAround(ReplaceAll(a + [x] + b, pat, rep), ReplaceAll(a, pat, rep), [a[0]], ReplaceAll(a[1..], pat, rep), [x],
               ReplaceAll(b, pat, rep));
  }

  lemma ConsAround<T>(whole: seq<T>, left: seq<T>, c: seq<T>, u: seq<T>, m: seq<T>, v: seq<T>)
    requires whole == c + (u + m + v) && left == c + u
    ensures whole == left + m + v
  {
  }

  lemma CutFirstCopied(a: string, x: char, b: string, pat: string, rep: string)
    requires 0 < |pat| && 0 < |a| && x !in pat
    requires |a| < |pat| || a[..|pat|] != pat
    ensures ReplaceAll(a + [x] + b, pat, rep) == [a[0]] + ReplaceAll(a[1..] + [x] + b, pat, rep)
    ensures ReplaceAll(a, pat, rep) == [a[0]] + ReplaceAll(a[1..], pat, rep)
  {
    var s := a + [x] + b;
    assert s[1..] == a[1..] + [x] + b;
    if |a| >= |pat| {
      assert s[..|pat|] == a[..|pat|];
      ReplaceAllMiss(a, pat, rep);
      ReplaceAllMiss(s, pat, rep);
    } else {
      ReplaceAllShortCons(a, pat, rep);
      if |s| >= |pat| {
        assert s[..|pat|][|a|] == x;
        ReplaceAllMiss(s, pat, rep);
      }
    }
  }

  /** No proper prefix of `pat` is also a suffix of it, so an occurrence
      cannot overlap the start of another. */
  predicate NoBorder(pat: string)
  {
    forall l :: 0 < l < |pat| ==> pat[..l] != pat[|pat| - l..]
  }

  /** An occurrence of a border-free pattern is replaced on its own, whatever
      surrounds it. */
  lemma {:induction false} ReplaceAllMid(a: string, b: string, pat: string, rep: string)
    requires |pat| > 0 && NoBorder(pat)
    ensures ReplaceAll(a + pat + b, pat, rep) == ReplaceAll(a, pat, rep) + rep + ReplaceAll(b, pat, rep)
    decreases |a|
  {
    if a == [] {
      MidAt(b, pat, rep);
    } else if |a| >= |pat| && a[..|pat|] == pat {
      ReplaceAllMid(a[|pat|..], b, pat, rep);
      MidSkip(a, b, pat, rep);
    } else {
      ReplaceAllMid(a[1..], b, pat, rep);
      MidCopy(a, b, pat, rep);
    }
  }

  lemma MidAt(b: string, pat: string, rep: string)
    requires |pat| > 0
    ensures ReplaceAll([] + pat + b, pat, rep) == ReplaceAll([], pat, rep) + rep + ReplaceAll(b, pat, rep)
  {
    var s := [] + pat + b;
    assert s[..|pat|] == pat && s[|pat|..] == b;
    ReplaceAllHit(s, pat, rep);
  }

  /** An occurrence at the start of `a` is replaced first. */
  lemma MidSkip(a: string, b: string, pat: string, rep: string)
    requires 0 < |pat| <= |a| && a[..|pat|] == pat
    requires ReplaceAll(a[|pat|..] + pat + b, pat, rep) == ReplaceAll(a[|pat|..], pat, rep) + rep + ReplaceAll(b, pat, rep)
    ensures ReplaceAll(a + pat + b, pat, rep) == ReplaceAll(a, pat, rep) + rep + ReplaceAll(b, pat, rep)
  {
    var s := a + pat + b;
    assert s[..|pat|] == a[..|pat|];
    assert s[|pat|..] == a[|pat|..] + pat + b;
    ReplaceAllHit(s, pat, rep);
    ReplaceAllHit(a, pat, rep);
    ConsAround(ReplaceAll(s, pat, rep), ReplaceAll(a, pat, rep), rep, ReplaceAll(a[|pat|..], pat, rep), rep,
               ReplaceAll(b, pat, rep));
  }

  /** Otherwise the first character of `a` is copied. */
  lemma MidCopy(a: string, b: string, pat: string, rep: string)
    requires 0 < |pat| && 0 < |a| && NoBorder(pat)
    requires |a| < |pat| || a[..|pat|] != pat
    requires ReplaceAll(a[1..] + pat + b, pat, rep) == ReplaceAll(a[1..], pat, rep) + rep + ReplaceAll(b, pat, rep)
    ensures ReplaceAll(a + pat + b, pat, rep) == ReplaceAll(a, pat, rep) + rep + ReplaceAll(b, pat, rep)
  {
    FirstCopied(a, b, pat, rep);
    ConsAround(ReplaceAll(a + pat + b, pat, rep), ReplaceAll(a, pat, rep), [a[0]], ReplaceAll(a[1..], pat, rep), rep,
               ReplaceAll(b, pat, rep));
  }

  lemma FirstCopied(a: string, b: string, pat: string, rep: string)
    requires 0 < |pat| && 0 < |a| && NoBorder(pat)
    requires |a| < |pat| || a[..|pat|] != pat
    ensures ReplaceAll(a + pat + b, pat, rep) == [a[0]] + ReplaceAll(a[1..] + pat + b, pat, rep)
    ensures ReplaceAll(a, pat, rep) == [a[0]] + ReplaceAll(a[1..], pat, rep)
  {
    var s := a + pat + b;
    assert s[1..] == a[1..] + pat + b;
    if |a| >= |pat| {
      assert (a + pat + b)[..|pat|] == a[..|pat|];
      ReplaceAllMiss(a, pat, rep);
    } else {
      ShortPrefixMisses(a, b, pat);
      ReplaceAllShortCons(a, pat, rep);
    }
    ReplaceAllMiss(s, pat, rep);
  }

  /** A window starting in a text shorter than a border-free pattern and
      running into an occurrence of it is not an occurrence. */
  lemma ShortPrefixMisses(a: string, b: string, pat: string)
    requires 0 < |a| < |pat| && NoBorder(pat)
    ensures (a + pat + b)[..|pat|] != pat
  {
    var s := a + pat + b;
    var l := |pat| - |a|;
    assert s[..|pat|][|a|..] == pat[..l];
    assert pat[..l] != pat[|pat| - l..];
  }

  /** Lexicographic order on character codes: the order `Array.prototype.sort`
      uses for ASCII strings. */
  predicate LexLe(a: string, b: string)
    decreases |a|
  {
    |a| == 0 || (|b| > 0 && (a[0] < b[0] || (a[0] == b[0] && LexLe(a[1..], b[1..]))))
  }

  lemma {:induction false} LexLeTotal(a: string, b: string)
    ensures LexLe(a, b) || LexLe(b, a)
    decreases |a|
  {
    if |a| > 0 && |b| > 0 && a[0] == b[0] {
      LexLeTotal(a[1..], b[1..]);
    }
  }

  lemma {:induction false} LexLeTrans(a: string, b: string, c: string)
    requires LexLe(a, b) && LexLe(b, c)
    ensures LexLe(a, c)
    decreases |a|
  {
    if |a| > 0 && a[0] == b[0] && b[0] == c[0] {
      LexLeTrans(a[1..], b[1..], c[1..]);
    }
  }

  lemma {:induction false} LexLeAntisym(a: string, b: string)
    requires LexLe(a, b) && LexLe(b, a)
    ensures a == b
    decreases |a|
  {
    if |a| > 0 {
      LexLeAntisym(a[1..], b[1..]);
      assert a == [a[0]] + a[1..];
      assert b == [b[0]] + b[1..];
    }
  }

  predicate Sorted(xs: seq<string>)
  {
    forall i, j :: 0 <= i < j < |xs| ==> LexLe(xs[i], xs[j])
  }

  function Insert(x: string, xs: seq<string>): seq<string>
    decreases |xs|
  {
    if xs == [] then [x]
    else if LexLe(x, xs[0]) then [x] + xs
    else [xs[0]] + Insert(x, xs[1..])
  }

  lemma {:induction false} InsertPerm(x: string, xs: seq<string>)
    ensures multiset(Insert(x, xs)) == multiset(xs) + multiset{x}
    decreases |xs|
  {
    if xs != [] && !LexLe(x, xs[0]) {
      InsertPerm(x, xs[1..]);
      assert xs == [xs[0]] + xs[1..];
    }
  }

  lemma {:induction false} InsertElems(x: string, xs: seq<string>, e: string)
    requires e in Insert(x, xs)
    ensures e == x || e in xs
  {
    InsertPerm(x, xs);
    assert e in multiset(Insert(x, xs));
  }

  lemma {:induction false} InsertSorted(x: string, xs: seq<string>)
    requires Sorted(xs)
    ensures Sorted(Insert(x, xs))
    decreases |xs|
  {
    if xs == [] {
    } else if LexLe(x, xs[0]) {
      forall j | 0 < j < |xs| ensures LexLe(x, xs[j]) {
        LexLeTrans(x, xs[0], xs[j]);
      }
    } else {
      LexLeTotal(x, xs[0]);
      InsertSorted(x, xs[1..]);
      var tail := Insert(x, xs[1..]);
      var r := [xs[0]] + tail;
      forall i, j | 0 <= i < j < |r| ensures LexLe(r[i], r[j]) {
        if i > 0 {
          assert r[i] == tail[i - 1] && r[j] == tail[j - 1];
        } else {
          var e := tail[j - 1];
          InsertElems(x, xs[1..], e);
          if e != x {
            var k :| 0 <= k < |xs[1..]| && xs[1..][k] == e;
            assert xs[k + 1] == e;
          }
        }
      }
    }
  }

  /** `xs.sort()`: sorted ascending, and a permutation of the input. */
  function SortStrings(xs: seq<string>): (r: seq<string>)
    ensures Sorted(r)
    ensures multiset(r) == multiset(xs)
    decreases |xs|
  {
    if xs == [] then []
    else
      assert xs == [xs[0]] + xs[1..];
      InsertSorted(xs[0], SortStrings(xs[1..]));
      InsertPerm(xs[0], SortStrings(xs[1..]));
      Insert(xs[0], SortStrings(xs[1..]))
  }
}
