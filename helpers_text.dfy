/** The text helpers of the documentation generator (`src/docgen/helpers.js`):
    the indefinite article for a resource name, HTML sanitising, and the two
    ways an operation `$ref` of the form `#/paths/<encoded path>/<verb>` is
    read back. */
module DocHelpers {
  import opened Base
  import opened Text
  import opened JsonModel

  /** The names that take "an": those starting with a, e, i or o, with "un"
      or with "hour", ignoring case. */
  predicate TakesAn(name: string)
  {
    var l := ToLower(name);
    (|l| > 0 && l[0] in "aeio") || StartsWith(l, "un") || StartsWith(l, "hour")
  }

  /** `getIndefiniteArticle(name)`. */
  function IndefiniteArticle(name: string): (r: string)
    ensures r == "an" <==> TakesAn(name)
    ensures r == "an" || r == "a"
  {
    var lower := ToLower(name);
    var first := if name == [] then "" else [LowerChar(name[0])];
    var specialCaseH := StartsWith(lower, "hour");
    var specialCaseU := first == "u" && !StartsWith(lower, "un");
    var article := if first in ["a", "e", "i", "o", "u"] && !specialCaseU then "an" else "a";
    if first == "h" && specialCaseH then "an" else article
  }

  /** The first four replacements of `sanitizeHtml`: braces and angle
      brackets become character references. */
  function EscapeChars(text: string): string
  {
    var a := ReplaceChar(text, '{', "&#123;");
    var b := ReplaceChar(a, '}', "&#125;");
    var c := ReplaceChar(b, '>', "&gt;");
    ReplaceChar(c, '<', "&lt;")
  }

  /** `}_{` once its braces are escaped, and the form that keeps its
      underscore from being read as markup. */
  const BraceUnderscore := "&#125;_&#123;"
  const BraceUnderscoreEscaped := "&#125;&#95;&#123;"

  /** `sanitizeHtml(text)`: braces and angle brackets become character
      references, `}_{` keeps its underscore from being read as markup, and
      line breaks become `<br />`. */
  function SanitizeHtml(text: string): string
  {
    var e := ReplaceAll(EscapeChars(text), BraceUnderscore, BraceUnderscoreEscaped);
    ReplaceChar(e, '\n', "<br />")
  }

  /** What each character becomes on its own: an independent statement of
      the replacements. */
  function Escaped(c: char): string
  {
    if c == '{' then "&#123;"
    else if c == '}' then "&#125;"
    else if c == '>' then "&gt;"
    else if c == '<' then "&lt;"
    else if c == '\n' then "<br />"
    else [c]
  }

  function EscapedEach(s: string): string
    decreases |s|
  {
    if s == [] then [] else Escaped(s[0]) + EscapedEach(s[1..])
  }

  /** Sanitised text holds no brace and no line break. */
  lemma SanitizeHtmlClean(text: string)
    ensures '{' !in SanitizeHtml(text) && '}' !in SanitizeHtml(text) && '\n' !in SanitizeHtml(text)
  {
    var a := ReplaceChar(text, '{', "&#123;");
    ReplaceCharRemoves(text, '{', "&#123;", '{');
    var b := ReplaceChar(a, '}', "&#125;");
    ReplaceCharRemoves(a, '}', "&#125;", '}');
    ReplaceCharRemoves(a, '}', "&#125;", '{');
    var c := ReplaceChar(b, '>', "&gt;");
    ReplaceCharRemoves(b, '>', "&gt;", '{');
    ReplaceCharRemoves(b, '>', "&gt;", '}');
    var d := ReplaceChar(c, '<', "&lt;");
    ReplaceCharRemoves(c, '<', "&lt;", '{');
    ReplaceCharRemoves(c, '<', "&lt;", '}');
    var e := ReplaceAll(d, BraceUnderscore, BraceUnderscoreEscaped);
    ReplaceAllKeepsOut(d, BraceUnderscore, BraceUnderscoreEscaped, '{');
    ReplaceAllKeepsOut(d, BraceUnderscore, BraceUnderscoreEscaped, '}');
    ReplaceCharRemoves(e, '\n', "<br />", '\n');
    ReplaceCharRemoves(e, '\n', "<br />", '{');
    ReplaceCharRemoves(e, '\n', "<br />", '}');
  }

  /** The character references are made one character at a time. */
  lemma EscapeCharsAppend(a: string, b: string)
    ensures EscapeChars(a + b) == EscapeChars(a) + EscapeChars(b)
  {
    var a1, b1 := ReplaceChar(a, '{', "&#123;"), ReplaceChar(b, '{', "&#123;");
    ReplaceCharAppend(a, b, '{', "&#123;");
    var a2, b2 := ReplaceChar(a1, '}', "&#125;"), ReplaceChar(b1, '}', "&#125;");
    ReplaceCharAppend(a1, b1, '}', "&#125;");
    var a3, b3 := ReplaceChar(a2, '>', "&gt;"), ReplaceChar(b2, '>', "&gt;");
    ReplaceCharAppend(a2, b2, '>', "&gt;");
    ReplaceCharAppend(a3, b3, '<', "&lt;");
  }

  /** A character other than a brace or an angle bracket gets no reference. */
  lemma EscapeCharsKeeps(x: char)
    requires x !in "{}<>"
    ensures EscapeChars([x]) == [x]
  {
    ReplaceCharAbsent([x], '{', "&#123;");
    ReplaceCharAbsent([x], '}', "&#125;");
    ReplaceCharAbsent([x], '>', "&gt;");
    ReplaceCharAbsent([x], '<', "&lt;");
  }

  /** Text with no brace, angle bracket or line break, in which the escaped
      form of `}_{` does not already appear, comes out unchanged. */
  lemma SanitizeFixedPoint(text: string)
    requires '{' !in text && '}' !in text && '<' !in text && '>' !in text && '\n' !in text
    requires !Occurs(text, BraceUnderscore)
    ensures SanitizeHtml(text) == text
  {
    ReplaceCharAbsent(text, '{', "&#123;");
    ReplaceCharAbsent(text, '}', "&#125;");
    ReplaceCharAbsent(text, '>', "&gt;");
    ReplaceCharAbsent(text, '<', "&lt;");
    ReplaceAllAbsent(text, BraceUnderscore, BraceUnderscoreEscaped);
    ReplaceCharAbsent(text, '\n', "<br />");
  }

  /** Every line break becomes a `<br />` tag, and the text on either side
      is sanitised on its own. */
  lemma SanitizeLineBreak(a: string, b: string)
    ensures SanitizeHtml(a + "\n" + b) == SanitizeHtml(a) + "<br />" + SanitizeHtml(b)
  {
    EscapeCharsAppend(a + "\n", b);
    EscapeCharsAppend(a, "\n");
    EscapeCharsKeeps('\n');
    var ea, eb := EscapeChars(a), EscapeChars(b);
    assert EscapeChars(a + "\n" + b) == ea + ['\n'] + eb;
    ReplaceAllCut(ea, '\n', eb, BraceUnderscore, BraceUnderscoreEscaped);
    var ra, rb := ReplaceAll(ea, BraceUnderscore, BraceUnderscoreEscaped), ReplaceAll(eb, BraceUnderscore, BraceUnderscoreEscaped);
    ReplaceCharAppend(ra + ['\n'], rb, '\n', "<br />");
    ReplaceCharAppend(ra, ['\n'], '\n', "<br />");
  }

  /** `}_{` comes out as `&#125;&#95;&#123;` wherever it stands, and the text
      on either side is sanitised on its own. */
  lemma SanitizeBraceUnderscore(a: string, b: string)
    ensures SanitizeHtml(a + "}_{" + b) == SanitizeHtml(a) + BraceUnderscoreEscaped + SanitizeHtml(b)
  {
    var m := ['}', '_', '{'];
    EscapeCharsAppend(a + m, b);
    EscapeCharsAppend(a, m);
    EscapeCharsThree('}', '_', '{');
    BraceUnderscoreParts();
    var ea, eb := EscapeChars(a), EscapeChars(b);
    BraceUnderscoreNoBorder();
    ReplaceAllMid(ea, eb, BraceUnderscore, BraceUnderscoreEscaped);
    var ra, rb := ReplaceAll(ea, BraceUnderscore, BraceUnderscoreEscaped), ReplaceAll(eb, BraceUnderscore, BraceUnderscoreEscaped);
    ReplaceCharAppend(ra + BraceUnderscoreEscaped, rb, '\n', "<br />");
    ReplaceCharAppend(ra, BraceUnderscoreEscaped, '\n', "<br />");
    EscapedNoBreak();
  }

  lemma BraceUnderscoreParts()
    ensures EscapedRef('}') + EscapedRef('_') + EscapedRef('{') == BraceUnderscore
  {
  }

  lemma EscapedNoBreak()
    ensures ReplaceChar(BraceUnderscoreEscaped, '\n', "<br />") == BraceUnderscoreEscaped
  {
    ReplaceCharAbsent(BraceUnderscoreEscaped, '\n', "<br />");
  }

  /** Three characters through the four replacements. */
  lemma EscapeCharsThree(x: char, y: char, z: char)
    ensures EscapeChars([x, y, z]) == EscapedRef(x) + EscapedRef(y) + EscapedRef(z)
  {
    assert [x, y, z] == [x] + [y] + [z];
    EscapeCharsAppend([x] + [y], [z]);
    EscapeCharsAppend([x], [y]);
    EscapeCharsOne(x);
    EscapeCharsOne(y);
    EscapeCharsOne(z);
  }

  /** What the four replacements make of one character. */
  function EscapedRef(c: char): string
  {
    if c in "{}<>" then Escaped(c) else [c]
  }

  /** One character through the four replacements. */
  lemma EscapeCharsOne(c: char)
    ensures EscapeChars([c]) == EscapedRef(c)
  {
    if c == '{' {
      ReplaceCharOne(c, '{', "&#123;");
      RestUntouched("&#123;", "}><");
    } else if c == '}' {
      ReplaceCharOne(c, '{', "&#123;");
      ReplaceCharOne(c, '}', "&#125;");
      RestUntouched("&#125;", "><");
    } else if c == '>' {
      ReplaceCharOne(c, '{', "&#123;");
      ReplaceCharOne(c, '}', "&#125;");
      ReplaceCharOne(c, '>', "&gt;");
      RestUntouched("&gt;", "<");
    } else {
      ReplaceCharOne(c, '{', "&#123;");
      ReplaceCharOne(c, '}', "&#125;");
      ReplaceCharOne(c, '>', "&gt;");
      ReplaceCharOne(c, '<', "&lt;");
    }
  }

  /** A reference holds none of the characters still to be replaced. */
  lemma RestUntouched(e: string, rest: string)
    requires forall x :: x in rest ==> x !in e
    requires '<' in rest
    ensures '}' in rest ==> ReplaceChar(e, '}', "&#125;") == e
    ensures '>' in rest ==> ReplaceChar(e, '>', "&gt;") == e
    ensures ReplaceChar(e, '<', "&lt;") == e
  {
    if '}' in rest {
      ReplaceCharAbsent(e, '}', "&#125;");
    }
    if '>' in rest {
      ReplaceCharAbsent(e, '>', "&gt;");
    }
    ReplaceCharAbsent(e, '<', "&lt;");
  }

  /** No proper prefix of the escaped `}_{` is also a suffix of it: its last
      character `;` appears earlier only at the end of `&#125;`, which is not
      `&#123;`. */
  lemma BraceUnderscoreNoBorder()
    ensures NoBorder(BraceUnderscore)
  {
    var p := BraceUnderscore;
    forall l | 0 < l < |p|
      ensures p[..l] != p[|p| - l..]
    {
      if l == 6 {
        assert p[..l][4] != p[|p| - l..][4];
      } else {
        assert p[..l][l - 1] != p[|p| - l..][l - 1];
      }
    }
  }

  /** Without underscores no `}_{` can form, and every character is
      replaced on its own: braces and angle brackets by their references,
      line breaks by `<br />`, anything else kept. */
  lemma {:induction false} SanitizeNoUnderscore(text: string)
    requires '_' !in text
    ensures SanitizeHtml(text) == EscapedEach(text)
    decreases |text|
  {
    if text == [] {
      SanitizeFixedPoint(text);
    } else {
      SanitizeNoUnderscore(text[1..]);
      SanitizeAppendPlain([text[0]], text[1..]);
      assert [text[0]] + text[1..] == text;
      SanitizeOne(text[0]);
    }
  }

  /** A single character is replaced as `Escaped` says. */
  lemma SanitizeOne(c: char)
    ensures SanitizeHtml([c]) == Escaped(c)
  {
    EscapeCharsOne(c);
    var e := EscapeChars([c]);
    assert |e| < |BraceUnderscore|;
    assert ReplaceAll(e, BraceUnderscore, BraceUnderscoreEscaped) == e;
    if c == '\n' {
      ReplaceCharOne(c, '\n', "<br />");
    } else {
      ReplaceCharAbsent(e, '\n', "<br />");
    }
  }

  /** Without underscores, sanitising two texts one after the other is
      sanitising them joined. */
  lemma SanitizeAppendPlain(a: string, b: string)
    requires '_' !in a + b
    ensures SanitizeHtml(a + b) == SanitizeHtml(a) + SanitizeHtml(b)
  {
    EscapeCharsAppend(a, b);
    var ea, eb := EscapeChars(a), EscapeChars(b);
    NoUnderscoreEscaped(a);
    NoUnderscoreEscaped(b);
    OccurrenceHasUnderscore(ea);
    OccurrenceHasUnderscore(eb);
    OccurrenceHasUnderscore(ea + eb);
    ReplaceAllAbsent(ea, BraceUnderscore, BraceUnderscoreEscaped);
    ReplaceAllAbsent(eb, BraceUnderscore, BraceUnderscoreEscaped);
    ReplaceAllAbsent(ea + eb, BraceUnderscore, BraceUnderscoreEscaped);
    ReplaceCharAppend(ea, eb, '\n', "<br />");
  }

  lemma NoUnderscoreEscaped(text: string)
    requires '_' !in text
    ensures '_' !in EscapeChars(text)
  {
    var a := ReplaceChar(text, '{', "&#123;");
    ReplaceCharRemoves(text, '{', "&#123;", '_');
    var b := ReplaceChar(a, '}', "&#125;");
    ReplaceCharRemoves(a, '}', "&#125;", '_');
    var c := ReplaceChar(b, '>', "&gt;");
    ReplaceCharRemoves(b, '>', "&gt;", '_');
    ReplaceCharRemoves(c, '<', "&lt;", '_');
  }

  /** The escaped form of `}_{` holds an underscore. */
  lemma OccurrenceHasUnderscore(s: string)
    ensures Occurs(s, BraceUnderscore) ==> '_' in s
  {
    if Occurs(s, BraceUnderscore) {
      var i: nat :| OccursAt(s, BraceUnderscore, i);
      assert s[i..i + |BraceUnderscore|][6] == s[i + 6];
    }
  }

  /** The path and HTTP verb `getHttpOperationForSqlVerb` reads from an
      operation `$ref`: the text after the last `#/paths/`, whose first
      `/`-segment with every `~1` turned back into `/` is the path and whose
      last segment is the verb. */
  function DecodeOpRef(ref: string): (string, string)
  {
    var parts := SplitOn(ref, "#/paths/");
    var operationRef := parts[|parts| - 1];
    (ReplaceAll(Split(operationRef, '/')[0], "~1", "/"), LastSegment(operationRef, '/'))
  }

  /** The characters `.` does not match in a JavaScript regular expression. */
  predicate IsLineTerminator(c: char)
  {
    c == '\n' || c == '\r' || c as int == 0x2028 || c as int == 0x2029
  }

  /** The position of the last `c` in `t`, if any. */
  function LastIndexOf(t: string, c: char): (r: Option<nat>)
    ensures r.Some? ==> r.value < |t| && t[r.value] == c && c !in t[r.value + 1..]
    ensures r.None? ==> c !in t
    decreases |t|
  {
    if t == [] then None
    else if t[|t| - 1] == c then Some(|t| - 1)
    else
      var r := LastIndexOf(t[..|t| - 1], c);
      assert t == t[..|t| - 1] + [t[|t| - 1]];
      if r.Some? then
        assert t[r.value + 1..] == t[..|t| - 1][r.value + 1..] + [t[|t| - 1]];
        r
      else r
  }

  /** `(.+)\/([^/]+)$` matched against the whole of `t`: the greedy first
      group ends at the last `/`, holds no line terminator and is not empty,
      and the second group is not empty. */
  function TailGroups(t: string): Option<(string, string)>
  {
    var p := LastIndexOf(t, '/');
    if p.None? || p.value == 0 || p.value == |t| - 1 then None
    else if exists k :: 0 <= k < p.value && IsLineTerminator(t[k]) then None
    else Some((t[..p.value], t[p.value + 1..]))
  }

  /** `s.match(/#\/paths\/(.+)\/([^/]+)$/)`, tried from position `i`
      onwards; the result is the two groups of the leftmost match. */
  function MatchFrom(s: string, i: nat): Option<(string, string)>
    decreases |s| - i
  {
    if |s| < i + 8 then None
    else if s[i..i + 8] == "#/paths/" && TailGroups(s[i + 8..]).Some? then TailGroups(s[i + 8..])
    else MatchFrom(s, i + 1)
  }

  function PathRefMatch(s: string): Option<(string, string)>
  {
    MatchFrom(s, 0)
  }

  /** A match really is `#/paths/<p>/<v>` at the end of `s`, with a non-empty
      `p` and a non-empty `v` free of `/`. */
  lemma {:induction false} MatchFromSound(s: string, i: nat)
    ensures MatchFrom(s, i).Some? ==>
              var (p, v) := MatchFrom(s, i).value;
              exists k :: i <= k <= |s| - 8 - |p| - 1 - |v| &&
                s == s[..k] + "#/paths/" + p + "/" + v && p != [] && v != [] && '/' !in v
    decreases |s| - i
  {
    if |s| >= i + 8 {
      if s[i..i + 8] == "#/paths/" && TailGroups(s[i + 8..]).Some? {
        var t := s[i + 8..];
        var pos := LastIndexOf(t, '/').value;
        var (p, v) := (t[..pos], t[pos + 1..]);
        assert t == p + "/" + v;
        assert s == s[..i] + s[i..i + 8] + t;
      } else {
        MatchFromSound(s, i + 1);
      }
    }
  }

  /** Where `#/paths/<p>/<v>` ends `s` (from position `i` on), with `p`
      non-empty and free of line terminators and `v` non-empty and free of
      `/`, the expression finds a match. */
  lemma {:induction false} MatchFromComplete(s: string, i: nat, k: nat, p: string, v: string)
    requires i <= k <= |s|
    requires s[k..] == "#/paths/" + p + "/" + v
    requires p != [] && v != [] && '/' !in v
    requires forall j :: 0 <= j < |p| ==> !IsLineTerminator(p[j])
    ensures MatchFrom(s, i).Some?
    decreases k - i
  {
    if i < k {
      if !(s[i..i + 8] == "#/paths/" && TailGroups(s[i + 8..]).Some?) {
        MatchFromComplete(s, i + 1, k, p, v);
      }
    } else {
      var t := p + "/" + v;
      assert s[k..][..8] == "#/paths/" && s[k..][8..] == t;
      var pos := LastIndexOf(t, '/');
      assert t[|p|] == '/';
      assert pos.Some?;
      var q := pos.value;
      assert q >= |p|;
      assert t[|p| + 1..] == v;
      assert q <= |p|;
      assert t[..|p|] == p;
    }
  }
}
