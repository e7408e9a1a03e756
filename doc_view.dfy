/** The page of a view resource (src/docgen/resource/view.js): the fields
    and required parameters of the view, then its SQL definition with one
    tab per dialect, the primary `select` followed by its chain of
    `fallback`s. */
module DocView {
  import opened Base
  import opened Text
  import opened JsonModel
  import opened JsonText
  import opened ExampleParts
  import ParamsSection

  // ---------------------------------------------------------------------
  // The pattern sqlDialect\s*==\s*['"](.*?)['"]

  const DialectKey := "sqlDialect"

  /** A character matched by `\s`. */
  predicate IsSpace(c: char)
  {
    c == ' ' || c == '\t' || c == '\n' || c == '\r' || c as int == 0x0B || c as int == 0x0C ||
    c as int == 0xA0 || c as int == 0x1680 || (0x2000 <= c as int <= 0x200A) ||
    c as int == 0x2028 || c as int == 0x2029 || c as int == 0x202F || c as int == 0x205F ||
    c as int == 0x3000 || c as int == 0xFEFF
  }

  /** A character `.` does not match. */
  predicate IsLineEnd(c: char)
  {
    c == '\n' || c == '\r' || c as int == 0x2028 || c as int == 0x2029
  }

  predicate IsQuote(c: char)
  {
    c == '\'' || c == '"'
  }

  predicate AllSpaces(t: string)
  {
    forall x :: 0 <= x < |t| ==> IsSpace(t[x])
  }

  /** Text the lazy group `(.*?)` can stop in: no line end, and no quote,
      since the first quote already closes it. */
  predicate PlainText(t: string)
  {
    forall x :: 0 <= x < |t| ==> !IsQuote(t[x]) && !IsLineEnd(t[x])
  }

  /** The pattern matches `s` at `i`, its two `\s*` ending at `j` and `k`,
      with group `cap`. */
  predicate MatchesWith(s: string, i: nat, j: nat, k: nat, cap: string)
  {
    i + |DialectKey| <= j && j + 2 <= k && k + |cap| + 1 < |s| &&
    s[i..i + |DialectKey|] == DialectKey && AllSpaces(s[i + |DialectKey|..j]) &&
    s[j] == '=' && s[j + 1] == '=' && AllSpaces(s[j + 2..k]) &&
    IsQuote(s[k]) && s[k + 1..k + 1 + |cap|] == cap && PlainText(cap) && IsQuote(s[k + 1 + |cap|])
  }

  /** The end of the run of spaces from `i` (`\s*` is greedy). */
  function SkipSpaces(s: string, i: nat): (j: nat)
    requires i <= |s|
    ensures i <= j <= |s| && AllSpaces(s[i..j]) && (j == |s| || !IsSpace(s[j]))
    decreases |s| - i
  {
    if i < |s| && IsSpace(s[i]) then
      var j := SkipSpaces(s, i + 1);
      assert s[i..j] == [s[i]] + s[i + 1..j];
      j
    else i
  }

  /** The run of spaces ends at the first character that is not one. */
  lemma {:induction false} SkipSpacesUnique(s: string, i: nat, j: nat)
    requires i <= j < |s| && AllSpaces(s[i..j]) && !IsSpace(s[j])
    ensures SkipSpaces(s, i) == j
    decreases j - i
  {
    if i < j {
      assert s[i] == s[i..j][0];
      assert s[i + 1..j] == s[i..j][1..];
      SkipSpacesUnique(s, i + 1, j);
    }
  }

  /** The position of the quote that closes the lazy group started at `i`,
      if one comes before a line end. */
  function CloseQuote(s: string, i: nat): (m: Option<nat>)
    requires i <= |s|
    ensures m.Some? ==> i <= m.value < |s| && IsQuote(s[m.value]) && PlainText(s[i..m.value])
    decreases |s| - i
  {
    if i == |s| || IsLineEnd(s[i]) then None
    else if IsQuote(s[i]) then Some(i)
    else
      var m := CloseQuote(s, i + 1);
      if m.Some? then
        assert s[i..m.value] == [s[i]] + s[i + 1..m.value];
        m
      else m
  }

  /** Any quote reached through plain text is the closing one. */
  lemma {:induction false} CloseQuoteUnique(s: string, i: nat, m: nat)
    requires i <= m < |s| && IsQuote(s[m]) && PlainText(s[i..m])
    ensures CloseQuote(s, i) == Some(m)
    decreases m - i
  {
    if i < m {
      assert s[i] == s[i..m][0];
      assert s[i + 1..m] == s[i..m][1..];
      CloseQuoteUnique(s, i + 1, m);
    }
  }

  /** The group the pattern captures when matched at `i`. */
  function MatchAt(s: string, i: nat): Option<string>
    requires i <= |s|
  {
    if !(i + |DialectKey| <= |s| && s[i..i + |DialectKey|] == DialectKey) then None
    else
      var j := SkipSpaces(s, i + |DialectKey|);
      if !(j + 2 <= |s| && s[j] == '=' && s[j + 1] == '=') then None
      else
        var k := SkipSpaces(s, j + 2);
        if !(k < |s| && IsQuote(s[k])) then None
        else
          var m := CloseQuote(s, k + 1);
          if m.None? then None else Some(s[k + 1..m.value])
  }

  /** What the matcher captures, the pattern matches with. */
  lemma MatchAtSound(s: string, i: nat)
    requires i <= |s| && MatchAt(s, i).Some?
    ensures exists j: nat, k: nat :: MatchesWith(s, i, j, k, MatchAt(s, i).value)
  {
    var cap := MatchAt(s, i).value;
    var j := SkipSpaces(s, i + |DialectKey|);
    var k := SkipSpaces(s, j + 2);
    var m := CloseQuote(s, k + 1).value;
    assert m == k + 1 + |cap|;
    assert MatchesWith(s, i, j, k, cap);
  }

  /** Where the pattern matches, the matcher captures the same group: the
      greedy spaces and the lazy group leave no other choice. */
  lemma MatchAtComplete(s: string, i: nat, j: nat, k: nat, cap: string)
    requires MatchesWith(s, i, j, k, cap)
    ensures i <= |s| && MatchAt(s, i) == Some(cap)
  {
    SkipSpacesUnique(s, i + |DialectKey|, j);
    SkipSpacesUnique(s, j + 2, k);
    CloseQuoteUnique(s, k + 1, k + 1 + |cap|);
  }

  /** `s.match(...)`: the group of the leftmost match from `i` on. */
  function FirstMatch(s: string, i: nat): Option<string>
    requires i <= |s|
    decreases |s| - i
  {
    if MatchAt(s, i).Some? then MatchAt(s, i)
    else if i == |s| then None
    else FirstMatch(s, i + 1)
  }

  /** The pattern matches at no position from `i` up to, not including,
      `p`. */
  ghost predicate NoMatchBetween(s: string, i: nat, p: nat)
    requires p <= |s| + 1
  {
    forall q :: i <= q < p ==> MatchAt(s, q).None?
  }

  /** `FirstMatch(s, i)` is the match at `p`, and there is none before. */
  ghost predicate LeftmostAt(s: string, i: nat, p: nat)
    requires i <= |s|
  {
    i <= p <= |s| && MatchAt(s, p) == FirstMatch(s, i) && NoMatchBetween(s, i, p)
  }

  /** The match found is the leftmost one, and none is found only when the
      pattern matches nowhere. */
  lemma {:induction false} FirstMatchLeftmost(s: string, i: nat)
    requires i <= |s|
    ensures FirstMatch(s, i).None? <==> NoMatchBetween(s, i, |s| + 1)
    ensures FirstMatch(s, i).Some? ==> exists p :: LeftmostAt(s, i, p)
    decreases |s| - i
  {
    if MatchAt(s, i).Some? {
      MatchHere(s, i);
    } else if i == |s| {
      NoMatchAtEnd(s);
    } else {
      FirstMatchLeftmost(s, i + 1);
      NoMatchSkip(s, i);
      if FirstMatch(s, i).Some? {
        var p :| LeftmostAt(s, i + 1, p);
        LeftmostSkip(s, i, p);
      }
    }
  }

  /** A match at `i` is the one found. */
  lemma MatchHere(s: string, i: nat)
    requires i <= |s| && MatchAt(s, i).Some?
    ensures FirstMatch(s, i).Some? && !NoMatchBetween(s, i, |s| + 1) && LeftmostAt(s, i, i)
  {
    assert i <= i < |s| + 1;
  }

  /** At the end of the text, the search finds nothing when the pattern does
      not match there. */
  lemma NoMatchAtEnd(s: string)
    requires MatchAt(s, |s|).None?
    ensures FirstMatch(s, |s|).None? && NoMatchBetween(s, |s|, |s| + 1)
  {
  }

  /** A position where the pattern does not match passes the search on. */
  lemma NoMatchSkip(s: string, i: nat)
    requires i < |s| && MatchAt(s, i).None?
    ensures FirstMatch(s, i) == FirstMatch(s, i + 1)
    ensures NoMatchBetween(s, i, |s| + 1) <==> NoMatchBetween(s, i + 1, |s| + 1)
  {
  }

  lemma LeftmostSkip(s: string, i: nat, p: nat)
    requires i < |s| && MatchAt(s, i).None? && LeftmostAt(s, i + 1, p)
    ensures LeftmostAt(s, i, p)
  {
    NoMatchSkip(s, i);
  }

  // ---------------------------------------------------------------------
  // extractDialectName

  /** `charAt(0).toUpperCase() + slice(1)`. */
  function Capitalize(t: string): string
    requires |t| > 0
  {
    [UpperChar(t[0])] + t[1..]
  }

  function InvalidPredicate(p: string): string
  {
    "Invalid dialect predicate: " + p
  }

  /** `extractDialectName(predicate)`. */
  function DialectName(pred: Option<Json>): Result<string>
  {
    if !TruthyOpt(pred) then Ok("Default")
    else if !pred.value.Str? then Err(TypeError + ": predicate.match is not a function")
    else
      var p := pred.value.s;
      var cap := FirstMatch(p, 0);
      if cap.None? || cap.value == "" then Err(InvalidPredicate(p))
      else Ok(Capitalize(cap.value))
  }

  /** A missing or falsy predicate names the default dialect, and a
      predicate that is not text cannot be matched. */
  lemma DialectNameNoText(pred: Option<Json>)
    requires !TruthyOpt(pred) || !pred.value.Str?
    ensures DialectName(pred).Ok? <==> !TruthyOpt(pred)
    ensures DialectName(pred).Ok? ==> DialectName(pred).value == "Default"
  {
  }

  /** The leftmost match of the pattern in `p` is at `i` and captures
      nothing. */
  ghost predicate EmptyFirstMatch(p: string, i: nat)
  {
    i <= |p| && MatchAt(p, i) == Some("") && NoMatchBetween(p, 0, i)
  }

  /** The leftmost match is missing or empty exactly when the pattern
      matches nowhere or its leftmost match captures nothing. */
  lemma FirstMatchEmpty(p: string)
    ensures (FirstMatch(p, 0).None? || FirstMatch(p, 0) == Some("")) <==>
              NoMatchBetween(p, 0, |p| + 1) || exists i :: EmptyFirstMatch(p, i)
  {
    FirstMatchLeftmost(p, 0);
    if FirstMatch(p, 0).Some? {
      var i :| LeftmostAt(p, 0, i);
      forall j | EmptyFirstMatch(p, j)
        ensures FirstMatch(p, 0) == Some("")
      {
        LeftmostUnique(p, i, j);
      }
      if FirstMatch(p, 0) == Some("") {
        assert EmptyFirstMatch(p, i);
      }
    }
  }

  /** Two positions with no match before them and a match at them are the
      same. */
  lemma LeftmostUnique(p: string, i: nat, j: nat)
    requires i <= |p| && j <= |p|
    requires MatchAt(p, i).Some? && NoMatchBetween(p, 0, i)
    requires MatchAt(p, j).Some? && NoMatchBetween(p, 0, j)
    ensures i == j
  {
  }

  /** A text predicate is rejected exactly when the pattern matches nowhere
      or its leftmost match captures nothing. */
  lemma DialectNameErr(pred: Option<Json>)
    requires TruthyOpt(pred) && pred.value.Str?
    ensures var p := pred.value.s;
            DialectName(pred).Err? <==> NoMatchBetween(p, 0, |p| + 1) || exists i :: EmptyFirstMatch(p, i)
    ensures DialectName(pred).Err? ==> DialectName(pred) == Err(InvalidPredicate(pred.value.s))
  {
    var p := pred.value.s;
    FirstMatchEmpty(p);
    assert DialectName(pred).Err? <==> FirstMatch(p, 0).None? || FirstMatch(p, 0) == Some("");
  }

  /** A named dialect is the group of the leftmost match, which is not
      empty, with its first letter upper-cased. */
  lemma DialectNameOk(pred: Option<Json>)
    requires TruthyOpt(pred) && pred.value.Str? && DialectName(pred).Ok?
    ensures var p := pred.value.s;
            exists i, cap :: 0 <= i <= |p| && MatchAt(p, i) == Some(cap) && |cap| > 0 &&
                             (forall q :: 0 <= q < i ==> MatchAt(p, q).None?) &&
                             DialectName(pred).value == Capitalize(cap)
  {
    var p := pred.value.s;
    FirstMatchLeftmost(p, 0);
    var i :| 0 <= i <= |p| && MatchAt(p, i) == FirstMatch(p, 0) && forall q :: 0 <= q < i ==> MatchAt(p, q).None?;
    var cap := FirstMatch(p, 0).value;
    assert MatchAt(p, i) == Some(cap) && |cap| > 0;
  }

  /** The name is as long as the captured dialect and starts upper-case
      when the dialect starts with a lower-case letter. */
  lemma CapitalizeKeeps(t: string)
    requires |t| > 0
    ensures |Capitalize(t)| == |t| && Capitalize(t)[1..] == t[1..]
    ensures IsLower(t[0]) ==> IsUpper(Capitalize(t)[0])
    ensures !IsLower(t[0]) ==> Capitalize(t) == t
  {
    if !IsLower(t[0]) {
      assert Capitalize(t) == [t[0]] + t[1..];
    }
  }

  // ---------------------------------------------------------------------
  // The dialects: the primary select, then each fallback

  datatype Dialect = Dialect(name: string, ddl: Option<Json>)

  /** A property of an object is smaller than the object. */
  lemma GetSmaller(j: Json, k: string)
    requires Get(j, k).Some?
    ensures Get(j, k).value < j
  {
    LookupFound(j.entries, k);
    var e := Entry(k, Get(j, k).value);
    assert e in j.entries;
  }

  /** The select and its fallbacks, in order. */
  function Chain(select: Json): (c: seq<Json>)
    ensures |c| > 0 && c[0] == select
    decreases select
  {
    if TruthyOpt(Get(select, "fallback")) then
      GetSmaller(select, "fallback");
      [select] + Chain(Get(select, "fallback").value)
    else [select]
  }

  /** Each link of the chain is the `fallback` of the one before, and the
      chain stops exactly at a select without a truthy `fallback`. */
  lemma {:induction false} ChainAt(select: Json, i: nat)
    requires i < |Chain(select)|
    ensures i + 1 < |Chain(select)| <==> TruthyOpt(Get(Chain(select)[i], "fallback"))
    ensures i + 1 < |Chain(select)| ==> Chain(select)[i + 1] == Get(Chain(select)[i], "fallback").value
    decreases select
  {
    if TruthyOpt(Get(select, "fallback")) {
      var next := Get(select, "fallback").value;
      GetSmaller(select, "fallback");
      if i > 0 {
        ChainAt(next, i - 1);
      }
    }
  }

  /** One dialect; a `null` select throws on `.predicate`. */
  function DialectOf(select: Json): Result<Dialect>
  {
    var pred :- Member(select, "predicate");
    var name :- DialectName(pred);
    Ok(Dialect(name, Get(select, "ddl")))
  }

  /** The dialects of the first `n` selects of a chain. */
  function DialectsOf(chain: seq<Json>, n: nat): Result<seq<Dialect>>
    requires n <= |chain|
  {
    MapEach(DialectOf, chain, n)
  }

  function Dialects(select: Json): Result<seq<Dialect>>
  {
    DialectsOf(Chain(select), |Chain(select)|)
  }

  /** The select at `i` is the first of the first `n` whose dialect cannot
      be named. */
  ghost predicate FailsFirstAt(chain: seq<Json>, i: int, n: nat)
  {
    0 <= i < n <= |chain| && DialectOf(chain[i]).Err? && forall q :: 0 <= q < i ==> DialectOf(chain[q]).Ok?
  }

  /** `r` holds one dialect per select among the first `n`, in chain order,
      or the error of the first select whose dialect cannot be named. */
  ghost predicate DialectsSound(r: Result<seq<Dialect>>, chain: seq<Json>, n: nat)
    requires n <= |chain|
  {
    (r.Ok? <==> forall i :: 0 <= i < n ==> DialectOf(chain[i]).Ok?) &&
    (r.Ok? ==> |r.value| == n && forall i :: 0 <= i < n ==> r.value[i] == DialectOf(chain[i]).value) &&
    (r.Err? ==> exists i :: FailsFirstAt(chain, i, n) && r == Err(DialectOf(chain[i]).error))
  }

  /** One dialect per select, in chain order; the walk fails with the
      error of the first select whose dialect cannot be named. */
  lemma DialectsExact(chain: seq<Json>, n: nat)
    requires n <= |chain|
    ensures DialectsSound(DialectsOf(chain, n), chain, n)
  {
    MapEachExact(DialectOf, chain, n);
    if DialectsOf(chain, n).Err? {
      var i :| FirstThrows(DialectOf, chain, i, n) && DialectsOf(chain, n) == Err(DialectOf(chain[i]).error);
      assert FailsFirstAt(chain, i, n);
    }
  }

  /** The walk `while (currentSelect.fallback)`. */
  method CollectDialects(select: Json) returns (r: Result<seq<Dialect>>)
    ensures r == Dialects(select)
  {
    ghost var chain := Chain(select);
    var current := select;
    var first := DialectOf(current);
    if first.Err? {
      MapEachErrStays(DialectOf, chain, 1, |chain|);
      return Err(first.error);
    }
    var dialects := [first.value];
    assert DialectsOf(chain, 1) == Ok(dialects) by {
      assert chain[0] == current && DialectsOf(chain, 0) == Ok([]);
      assert [] + [first.value] == dialects;
    }
    ghost var i := 0;
    while TruthyOpt(Get(current, "fallback"))
      invariant i < |chain| && chain[i] == current
      invariant DialectsOf(chain, i + 1) == Ok(dialects)
      decreases |chain| - i
    {
      ChainAt(select, i);
      current := Get(current, "fallback").value;
      var d := DialectOf(current);
      if d.Err? {
        MapEachErrStays(DialectOf, chain, i + 2, |chain|);
        return Err(d.error);
      }
      dialects := dialects + [d.value];
      i := i + 1;
    }
    ChainAt(select, i);
    return Ok(dialects);
  }

  // ---------------------------------------------------------------------
  // The tables of fields and of required parameters

  /** `x ?? dflt` on a read that may be `undefined`. */
  function Nullish(x: Option<Json>, dflt: Json): Json
  {
    if x.None? || x.value.Null? then dflt else x.value
  }

  /** `x?.[k]`. */
  function OptGet(x: Option<Json>, k: string): Option<Json>
  {
    if x.None? || x.value.Null? then None else Get(x.value, k)
  }

  /** `x.length === 0`. */
  predicate IsEmptyList(x: Json)
  {
    match x
    case Arr(items) => items == []
    case Str(s) => s == []
    case Obj(_) => Get(x, "length") == Some(Num(0))
    case _ => false
  }

  /** `for (const item of x)`: arrays give their elements, strings their
      characters, anything else is not iterable. */
  function ItemsOf(x: Json): Result<seq<Json>>
  {
    match x
    case Arr(items) => Ok(items)
    case Str(s) => Ok(seq(|s|, i requires 0 <= i < |s| => Str([s[i]])))
    case _ => Err(TypeError + ": object is not iterable")
  }

  /** The row of one field or parameter; a `null` item throws. */
  function ItemRow(item: Json): Result<string>
  {
    if item.Null? then Err(TypeError + ": cannot read properties of null (reading 'name')")
    else
      Ok("\n<tr>\n    <td>" + PropKey(Get(item, "name")) + "</td>\n    <td>" + PropKey(Get(item, "type")) +
         "</td>\n    <td>" + PropKey(Get(item, "description")) + "</td>\n</tr>")
  }

  function ItemTurns(items: seq<Json>): (ts: seq<Result<string>>)
    ensures |ts| == |items|
  {
    seq(|items|, i requires 0 <= i < |items| => ItemRow(items[i]))
  }

  const TableEnd := "\n</tbody>\n</table>\n\n"

  /** `x.length > 0`: an array or string that is not empty, or an object
      whose `length` member is a positive number or `true`. Anything else
      has no `length`, and `undefined > 0` is false. */
  predicate HasPositiveLength(x: Json)
  {
    match x
    case Arr(items) => items != []
    case Str(s) => s != []
    case Obj(_) => Get(x, "length").Some? && PositiveNumber(Get(x, "length").value)
    case _ => false
  }

  /** `v > 0` for a number or a boolean. */
  predicate PositiveNumber(v: Json)
  {
    match v
    case Num(n) => n > 0
    case Bool(b) => b
    case _ => false
  }

  /** A table of the items of `x` after `intro`. */
  function ListTable(x: Json, intro: string): Result<string>
  {
    var items :- ItemsOf(x);
    var rows :- Concat(ItemTurns(items), |items|);
    Ok(intro + ParamsSection.TableHead + rows + TableEnd)
  }

  /** The table as written, row by row. */
  method RenderListTable(x: Json, intro: string) returns (r: Result<string>)
    ensures r == ListTable(x, intro)
  {
    var items :- ItemsOf(x);
    ghost var turns := ItemTurns(items);
    var content := intro + ParamsSection.TableHead;
    var rows := "";
    var i := 0;
    while i < |items|
      invariant 0 <= i <= |items|
      invariant Concat(turns, i) == Ok(rows)
    {
      var row := ItemRow(items[i]);
      assert turns[i] == row;
      ConcatStep(turns, i, rows);
      if row.Err? {
        ConcatErrStays(turns, i + 1, |items|);
        return Err(row.error);
      }
      rows := rows + row.value;
      i := i + 1;
    }
    content := content + rows;
    content := content + TableEnd;
    return Ok(content);
  }

  const NoFields := "See the SQL Definition (view DDL) for fields returned by this view.\n\n"

  const FieldsIntro := "The following fields are returned by this view:\n\n"

  const ParamsIntro := "## Required Parameters\n\nThe following parameters are required by this view:\n\n"

  function FieldsOf(config: Option<Json>): Json
  {
    Nullish(OptGet(OptGet(config, "views"), "fields"), Arr([]))
  }

  function RequiredParamsOf(config: Option<Json>): Json
  {
    Nullish(OptGet(OptGet(config, "views"), "requiredParams"), Arr([]))
  }

  /** `fields.length === 0`: the pointer to the definition, otherwise the
      table of fields. */
  function FieldsPart(config: Option<Json>): Result<string>
  {
    var fields := FieldsOf(config);
    if IsEmptyList(fields) then Ok(NoFields) else ListTable(fields, FieldsIntro)
  }

  /** `requiredParams.length > 0`: the required parameters section,
      otherwise nothing. */
  function ParamsPart(config: Option<Json>): Result<string>
  {
    var params := RequiredParamsOf(config);
    if HasPositiveLength(params) then ListTable(params, ParamsIntro) else Ok("")
  }

  /** A table starts with its intro and head; it throws exactly when `x`
      cannot be iterated or one of its items is `null`. */
  lemma ListTableShape(x: Json, intro: string)
    ensures ListTable(x, intro).Err? <==>
              !(x.Arr? || x.Str?) || (x.Arr? && exists i :: 0 <= i < |x.items| && x.items[i].Null?)
    ensures ListTable(x, intro).Ok? ==> StartsWith(ListTable(x, intro).value, intro + ParamsSection.TableHead)
  {
    var head := intro + ParamsSection.TableHead;
    if ItemsOf(x).Ok? {
      var items := ItemsOf(x).value;
      var turns := ItemTurns(items);
      ConcatOk(turns, |items|);
      if x.Arr? {
        assert forall i :: 0 <= i < |items| ==> (turns[i].Err? <==> x.items[i].Null?);
      } else {
        assert forall i :: 0 <= i < |items| ==> items[i].Str?;
      }
      if Concat(turns, |items|).Ok? {
        var rows := Concat(turns, |items|).value;
        assert (head + rows + TableEnd)[..|head|] == head;
      }
    }
  }

  /** Without fields the page points to the definition, and with fields it
      starts the table; the required parameters section appears exactly
      when `requiredParams.length > 0`, and anything without a positive
      length (`{}`, a number, `false`) writes nothing. */
  lemma PartsShape(config: Option<Json>)
    ensures FieldsPart(config).Ok? ==>
              (FieldsPart(config).value == NoFields <==> IsEmptyList(FieldsOf(config)))
    ensures !HasPositiveLength(RequiredParamsOf(config)) ==> ParamsPart(config) == Ok("")
    ensures ParamsPart(config).Ok? && HasPositiveLength(RequiredParamsOf(config)) ==>
              StartsWith(ParamsPart(config).value, ParamsIntro + ParamsSection.TableHead)
    ensures ParamsPart(config).Err? ==> RequiredParamsOf(config).Obj? || RequiredParamsOf(config).Arr?
  {
    var fields := FieldsOf(config);
    var params := RequiredParamsOf(config);
    if !IsEmptyList(fields) {
      ListTableShape(fields, FieldsIntro);
      if FieldsPart(config).Ok? {
        FieldsIntroDiffers(FieldsPart(config).value);
      }
    }
    if HasPositiveLength(params) {
      ListTableShape(params, ParamsIntro);
    }
  }

  lemma FieldsIntroDiffers(t: string)
    requires StartsWith(t, FieldsIntro + ParamsSection.TableHead)
    ensures t != NoFields
  {
    assert |NoFields| < |FieldsIntro + ParamsSection.TableHead|;
  }

  // ---------------------------------------------------------------------
  // The SQL definition

  function TabValue(d: Dialect): string
  {
    "{ label: '" + d.name + "', value: '" + d.name + "' }"
  }

  function TabValues(ds: seq<Dialect>): (vs: seq<string>)
    ensures |vs| == |ds|
  {
    seq(|ds|, i requires 0 <= i < |ds| => TabValue(ds[i]))
  }

  function TabItem(d: Dialect): string
  {
    "<TabItem value=\"" + d.name + "\">\n\n" + "```sql\n" + PropKey(d.ddl) + "\n```\n\n" + "</TabItem>\n"
  }

  /** The tab items of the first `n` dialects. */
  function TabItems(ds: seq<Dialect>, n: nat): string
    requires n <= |ds|
  {
    if n == 0 then "" else TabItems(ds, n - 1) + TabItem(ds[n - 1])
  }

  /** The opening of the tabs, naming the default tab. */
  function DefaultTab(name: string): string
  {
    "<Tabs\ndefaultValue=\"" + name + "\""
  }

  function TabsHead(ds: seq<Dialect>): string
    requires |ds| > 0
  {
    DefaultTab(ds[0].name) + ValuesProp(ds)
  }

  /** The `values` property listing every tab. */
  function ValuesProp(ds: seq<Dialect>): string
  {
    "\nvalues={[\n" + Join(TabValues(ds), ",\n") + "\n]}\n>\n"
  }

  const SqlHead := "## SQL Definition\n\n"

  const TabsEnd := "</Tabs>\n"

  function Definition(ds: seq<Dialect>): string
    requires |ds| > 0
  {
    SqlHead + TabsHead(ds) + TabItems(ds, |ds|) + TabsEnd
  }

  /** The items of fewer dialects are a prefix of the items of more. */
  lemma {:induction false} TabItemsPrefix(ds: seq<Dialect>, m: nat, n: nat)
    requires m <= n <= |ds|
    ensures StartsWith(TabItems(ds, n), TabItems(ds, m))
    decreases n
  {
    if m == n {
      StartsWithConcat(TabItems(ds, m), "");
      assert TabItems(ds, m) + "" == TabItems(ds, m);
    } else {
      TabItemsPrefix(ds, m, n - 1);
      TabItemsSnoc(ds, n);
      StartsWithTrans(TabItems(ds, n), TabItems(ds, n - 1), TabItems(ds, m));
    }
  }

  lemma TabItemsSnoc(ds: seq<Dialect>, n: nat)
    requires 0 < n <= |ds|
    ensures StartsWith(TabItems(ds, n), TabItems(ds, n - 1))
  {
    StartsWithConcat(TabItems(ds, n - 1), TabItem(ds[n - 1]));
  }

  /** Every dialect has its own tab item, after those of the dialects
      before it. */
  lemma TabItemsOccur(ds: seq<Dialect>, i: nat)
    requires i < |ds|
    ensures OccursAt(TabItems(ds, |ds|), TabItem(ds[i]), |TabItems(ds, i)|)
  {
    TabItemsPrefix(ds, i + 1, |ds|);
    OccursInPrefix(TabItems(ds, |ds|), TabItems(ds, i), TabItem(ds[i]));
  }

  lemma OccursInPrefix(t: string, before: string, item: string)
    requires StartsWith(t, before + item)
    ensures OccursAt(t, item, |before|)
  {
    var u := before + item;
    assert t[..|u|] == u;
    assert t[|before|..|u|] == u[|before|..];
  }

  /** The default tab is the first dialect. */
  lemma DefinitionStarts(ds: seq<Dialect>)
    requires |ds| > 0
    ensures StartsWith(Definition(ds), SqlHead + DefaultTab(ds[0].name))
  {
    var head := SqlHead + TabsHead(ds);
    var body := head + TabItems(ds, |ds|);
    StartsWithAppended(SqlHead, DefaultTab(ds[0].name), ValuesProp(ds));
    StartsWithConcat(head, TabItems(ds, |ds|));
    StartsWithTrans(body, head, SqlHead + DefaultTab(ds[0].name));
    StartsWithConcat(body, TabsEnd);
    StartsWithTrans(body + TabsEnd, body, SqlHead + DefaultTab(ds[0].name));
  }

  /** The tabs close the page. */
  lemma DefinitionEnds(ds: seq<Dialect>)
    requires |ds| > 0
    ensures EndsWith(Definition(ds), TabsEnd)
  {
    EndsWithConcat(SqlHead + TabsHead(ds) + TabItems(ds, |ds|), TabsEnd);
  }

  /** The tabs as written: the items appended dialect by dialect. */
  method RenderDefinition(ds: seq<Dialect>) returns (content: string)
    requires |ds| > 0
    ensures content == Definition(ds)
  {
    content := SqlHead + TabsHead(ds);
    var items := "";
    var i := 0;
    while i < |ds|
      invariant 0 <= i <= |ds|
      invariant items == TabItems(ds, i)
    {
      items := items + TabItem(ds[i]);
      i := i + 1;
    }
    content := content + items;
    content := content + TabsEnd;
  }

  // ---------------------------------------------------------------------
  // docView

  /** The definition of the dialects of `config.views.select`. */
  function DefinitionPart(config: Option<Json>): Result<string>
  {
    var views :- Read(config, "views");
    var select :- Read(views, "select");
    if select.None? then Err(TypeError + ": cannot read properties of undefined (reading 'predicate')")
    else
      var ds :- Dialects(select.value);
      Ok(Definition(ds))
  }

  /** `docView(resourceData)`. */
  function ViewText(resourceData: Json): Result<string>
  {
    var config :- Member(resourceData, "config");
    var fields :- FieldsPart(config);
    var params :- ParamsPart(config);
    var definition :- DefinitionPart(config);
    Ok(fields + params + definition)
  }

  /** The page is the fields part, the parameters part and the definition
      of the dialects of the select chain, which is never empty. */
  lemma ViewShape(resourceData: Json)
    requires ViewText(resourceData).Ok?
    ensures var config := Get(resourceData, "config");
            var select := Get(Get(config.value, "views").value, "select");
            FieldsPart(config).Ok? && ParamsPart(config).Ok? && config.Some? &&
            select.Some? && Dialects(select.value).Ok? && |Dialects(select.value).value| > 0 &&
            ViewText(resourceData).value ==
              FieldsPart(config).value + ParamsPart(config).value + Definition(Dialects(select.value).value)
  {
    var select := Get(Get(Get(resourceData, "config").value, "views").value, "select").value;
    DialectsExact(Chain(select), |Chain(select)|);
  }

  /** The SQL definition as written. */
  method RenderDefinitionPart(config: Option<Json>) returns (r: Result<string>)
    ensures r == DefinitionPart(config)
  {
    var views :- Read(config, "views");
    var select :- Read(views, "select");
    if select.None? {
      return Err(TypeError + ": cannot read properties of undefined (reading 'predicate')");
    }
    var ds :- CollectDialects(select.value);
    DialectsExact(Chain(select.value), |Chain(select.value)|);
    var definition := RenderDefinition(ds);
    return Ok(definition);
  }

  /** `docView` as written. */
  method CreateDocView(resourceData: Json) returns (r: Result<string>)
    ensures r == ViewText(resourceData)
  {
    var config :- Member(resourceData, "config");
    var fields := FieldsOf(config);
    var fieldsPart := Ok(NoFields);
    if !IsEmptyList(fields) {
      fieldsPart := RenderListTable(fields, FieldsIntro);
    }
    assert fieldsPart == FieldsPart(config);
    if fieldsPart.Err? {
      return Err(fieldsPart.error);
    }
    var content := fieldsPart.value;
    var params := RequiredParamsOf(config);
    var paramsPart := Ok("");
    if HasPositiveLength(params) {
      paramsPart := RenderListTable(params, ParamsIntro);
    }
    assert paramsPart == ParamsPart(config);
    if paramsPart.Err? {
      return Err(paramsPart.error);
    }
    content := content + paramsPart.value;
    var definition := RenderDefinitionPart(config);
    if definition.Err? {
      return Err(definition.error);
    }
    content := content + definition.value;
    return Ok(content);
  }
}
