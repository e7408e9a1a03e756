/** The `INSERT` example of a resource page
    (src/docgen/resource/examples/insert-example.js): the columns an insert
    takes, the SQL for all of them and for the required ones, and the
    manifest YAML whose descriptions are wrapped at 70 characters. */
module InsertExample {
  import opened Base
  import opened Text
  import opened JsonModel
  import opened JsonText
  import opened ExampleParts
  import DocOperation

  /** Where a column comes from: a parameter (tagged `in: 'path'` whatever
      its `in`) or a property of the request body. */
  datatype Place = Path | Body

  /** One entry of `getInsertProperties`; `name` is `undefined` for a
      parameter that has none. No entry has a `default`. */
  datatype Column = Column(name: Option<Json>, required: bool, place: Place, typ: Option<Json>, description: Json)

  /** The column always added when no column is called `name`. */
  const NameColumn := Column(Some(Str("name")), true, Body, Some(Str("string")), Str("Resource name"))

  /** The column of one parameter, when the loop keeps it; reading `name` of
      a `null` parameter throws. */
  function ParamColumn(param: Json, requiredOnly: bool): (r: Result<Option<Column>>)
    ensures r.Err? <==> param.Null?
    ensures r.Ok? && r.value.Some? ==>
              r.value.value.place == Path && r.value.value.name != Some(Str("endpoint")) &&
              (requiredOnly ==> r.value.value.required)
  {
    if param.Null? then Err(TypeError + ": cannot read properties of null (reading 'name')")
    else
      var name := Get(param, "name");
      var required := TruthyOpt(Get(param, "required"));
      if name == Some(Str("endpoint")) || (requiredOnly && !required) then Ok(None)
      else
        var schema := Get(param, "schema");
        Ok(Some(Column(name, required, Path,
                       if TruthyOpt(schema) then Get(schema.value, "type") else Some(Str("string")),
                       Or(Get(param, "description"), Str("")))))
  }

  /** The column of one body property, when the loop keeps it: `endpoint`
      is skipped, and with `requiredOnly` only properties `schema.required`
      includes are kept. */
  function BodyColumn(e: Entry, required: Json, requiredOnly: bool): (r: Result<Option<Column>>)
    ensures r.Ok? && r.value.Some? ==>
              r.value.value.place == Body && r.value.value.name == Some(Str(e.key)) && e.key != "endpoint" &&
              r.value.value.required == (Includes(required, e.key) == Ok(true)) &&
              (requiredOnly ==> r.value.value.required)
  {
    if e.key == "endpoint" then Ok(None)
    else
      var isRequired :- Includes(required, e.key);
      if requiredOnly && !isRequired then Ok(None)
      else if e.value.Null? then Err(TypeError + ": cannot read properties of null (reading 'type')")
      else Ok(Some(Column(Some(Str(e.key)), isRequired, Body, Some(Or(Get(e.value, "type"), Str("object"))),
                          Or(Get(e.value, "description"), Str("")))))
  }

  function ParamTurns(params: seq<Json>, requiredOnly: bool): (ts: seq<Result<Option<Column>>>)
    ensures |ts| == |params|
  {
    seq(|params|, i requires 0 <= i < |params| => ParamColumn(params[i], requiredOnly))
  }

  function BodyTurns(props: seq<Entry>, required: Json, requiredOnly: bool): (ts: seq<Result<Option<Column>>>)
    ensures |ts| == |props|
  {
    seq(|props|, i requires 0 <= i < |props| => BodyColumn(props[i], required, requiredOnly))
  }

  /** The body properties the loop walks. */
  function BodyProps(operation: Json): seq<Entry>
  {
    var schema := BodySchema(operation);
    if schema.Some? && TruthyOpt(Get(schema.value, "properties")) then Entries(Get(schema.value, "properties").value)
    else []
  }

  /** `schema.required`, or `null` when there is no schema. */
  function RequiredList(operation: Json): Json
  {
    var schema := BodySchema(operation);
    if schema.Some? then Or(Get(schema.value, "required"), Null) else Null
  }

  function HasName(cols: seq<Column>): bool
  {
    exists i :: 0 <= i < |cols| && cols[i].name == Some(Str("name"))
  }

  /** The columns of the parameter loop. */
  function ParamColumns(operation: Json, requiredOnly: bool): Result<seq<Column>>
  {
    var params :- ParamsOf(operation);
    Gather(ParamTurns(params, requiredOnly), |params|)
  }

  /** The columns of the body loop. */
  function BodyColumns(operation: Json, requiredOnly: bool): Result<seq<Column>>
  {
    var props := BodyProps(operation);
    Gather(BodyTurns(props, RequiredList(operation), requiredOnly), |props|)
  }

  /** `getInsertProperties(operation, requiredOnly)`: the kept parameters,
      then the kept body properties, then `name` unless some column already
      has that name. Reading `parameters` of `undefined` or `null` throws. */
  function InsertColumns(operation: Option<Json>, requiredOnly: bool): Result<seq<Column>>
  {
    if operation.None? || operation.value.Null? then Err(TypeError + ": cannot read properties of undefined (reading 'parameters')")
    else
      var fromParams :- ParamColumns(operation.value, requiredOnly);
      var fromBody :- BodyColumns(operation.value, requiredOnly);
      var cols := fromParams + fromBody;
      if HasName(cols) then Ok(cols) else Ok(cols + [NameColumn])
  }

  /** The columns come in source order: the kept parameters in parameter
      order, then the kept body properties in property order. */
  lemma ColumnsOrder(operation: Json, requiredOnly: bool)
    requires ParamColumns(operation, requiredOnly).Ok? && BodyColumns(operation, requiredOnly).Ok?
    ensures var params := ParamsOf(operation).value;
            var props := BodyProps(operation);
            ParamColumns(operation, requiredOnly).value == Given(ParamTurns(params, requiredOnly), |params|) &&
            BodyColumns(operation, requiredOnly).value ==
              Given(BodyTurns(props, RequiredList(operation), requiredOnly), |props|)
  {
    var params := ParamsOf(operation).value;
    var props := BodyProps(operation);
    GatherOrder(ParamTurns(params, requiredOnly), |params|);
    GatherOrder(BodyTurns(props, RequiredList(operation), requiredOnly), |props|);
  }

  /** The parameter loop keeps exactly the parameters whose column is kept,
      as path columns, never `endpoint`, all required with `requiredOnly`. */
  lemma ParamColumnsShape(operation: Json, requiredOnly: bool)
    requires ParamColumns(operation, requiredOnly).Ok?
    ensures var params := ParamsOf(operation).value;
            forall c :: c in ParamColumns(operation, requiredOnly).value <==>
              exists i :: 0 <= i < |params| && ParamColumn(params[i], requiredOnly) == Ok(Some(c))
    ensures forall c :: c in ParamColumns(operation, requiredOnly).value ==>
              c.place == Path && c.name != Some(Str("endpoint")) && (requiredOnly ==> c.required)
  {
    var params := ParamsOf(operation).value;
    var pt := ParamTurns(params, requiredOnly);
    GatherExact(pt, |params|);
    assert forall i :: 0 <= i < |params| ==> pt[i] == ParamColumn(params[i], requiredOnly);
  }

  /** The body loop keeps exactly the properties whose column is kept, as
      body columns, never `endpoint`, all required with `requiredOnly`. */
  lemma BodyColumnsShape(operation: Json, requiredOnly: bool)
    requires BodyColumns(operation, requiredOnly).Ok?
    ensures var props := BodyProps(operation);
            forall c :: c in BodyColumns(operation, requiredOnly).value <==>
              exists i :: 0 <= i < |props| && BodyColumn(props[i], RequiredList(operation), requiredOnly) == Ok(Some(c))
    ensures forall c :: c in BodyColumns(operation, requiredOnly).value ==>
              c.place == Body && c.name != Some(Str("endpoint")) && (requiredOnly ==> c.required)
  {
    var props := BodyProps(operation);
    var bt := BodyTurns(props, RequiredList(operation), requiredOnly);
    GatherExact(bt, |props|);
    assert forall i :: 0 <= i < |props| ==> bt[i] == BodyColumn(props[i], RequiredList(operation), requiredOnly);
  }

  /** Path columns followed by body columns, and perhaps the `name` column:
      no path column comes after a body column. */
  lemma PathsFirst(fromParams: seq<Column>, fromBody: seq<Column>, cols: seq<Column>)
    requires forall c :: c in fromParams ==> c.place == Path
    requires forall c :: c in fromBody ==> c.place == Body
    requires cols == fromParams + fromBody || cols == fromParams + fromBody + [NameColumn]
    ensures forall i, j :: 0 <= i < j < |cols| && cols[j].place == Path ==> cols[i].place == Path
  {
    forall k | |fromParams| <= k < |cols| ensures cols[k].place == Body {
      if k < |fromParams| + |fromBody| {
        assert cols[k] == fromBody[k - |fromParams|];
        assert cols[k] in fromBody;
      }
    }
    forall i, j | 0 <= i < j < |cols| && cols[j].place == Path ensures cols[i].place == Path {
      assert cols[i] == fromParams[i];
      assert cols[i] in fromParams;
    }
  }

  /** Every column is a kept parameter, a kept body property, or the added
      `name`; parameters come before body properties; no column is called
      `endpoint`; some column is called `name`; and with `requiredOnly` every
      column is required. */
  lemma InsertColumnsShape(operation: Option<Json>, requiredOnly: bool)
    requires InsertColumns(operation, requiredOnly).Ok?
    ensures var cols := InsertColumns(operation, requiredOnly).value;
            (forall c :: c in cols ==>
               c in ParamColumns(operation.value, requiredOnly).value ||
               c in BodyColumns(operation.value, requiredOnly).value || c == NameColumn) &&
            (forall i, j :: 0 <= i < j < |cols| && cols[j].place == Path ==> cols[i].place == Path) &&
            (forall c :: c in cols ==> c.name != Some(Str("endpoint"))) &&
            HasName(cols) &&
            (requiredOnly ==> forall c :: c in cols ==> c.required)
  {
    var fromParams := ParamColumns(operation.value, requiredOnly).value;
    var fromBody := BodyColumns(operation.value, requiredOnly).value;
    ParamColumnsShape(operation.value, requiredOnly);
    BodyColumnsShape(operation.value, requiredOnly);
    var cols := InsertColumns(operation, requiredOnly).value;
    assert cols == fromParams + fromBody || cols == fromParams + fromBody + [NameColumn];
    PathsFirst(fromParams, fromBody, cols);
    if !HasName(fromParams + fromBody) {
      assert cols[|cols| - 1] == NameColumn;
    }
  }

  /** The method as written: two `forEach` loops push onto `properties`,
      then `some` looks for `name`. */
  method GetInsertProperties(operation: Option<Json>, requiredOnly: bool) returns (r: Result<seq<Column>>)
    ensures r == InsertColumns(operation, requiredOnly)
  {
    if operation.None? || operation.value.Null? {
      return Err(TypeError + ": cannot read properties of undefined (reading 'parameters')");
    }
    var op := operation.value;
    var params := ParamsOf(op);
    if params.Err? {
      return Err(params.error);
    }
    var fromParams := CollectTurns(ParamTurns(params.value, requiredOnly));
    if fromParams.Err? {
      return fromParams;
    }
    var props := BodyProps(op);
    var fromBody := CollectTurns(BodyTurns(props, RequiredList(op), requiredOnly));
    if fromBody.Err? {
      return fromBody;
    }
    var cols := fromParams.value + fromBody.value;
    var named := SomeNamed(cols);
    if !named {
      cols := cols + [NameColumn];
    }
    return Ok(cols);
  }

  /** `properties.some(p => p.name === 'name')`. */
  method SomeNamed(cols: seq<Column>) returns (named: bool)
    ensures named == HasName(cols)
  {
    named := false;
    for j := 0 to |cols|
      invariant named <==> exists m :: 0 <= m < j && cols[m].name == Some(Str("name"))
    {
      if cols[j].name == Some(Str("name")) {
        named := true;
      }
    }
  }

  // ---------------------------------------------------------------------
  // generateInsertSql

  /** `prop.name` as `join` writes it: `undefined` and `null` give nothing. */
  function JoinText(o: Option<Json>): string
  {
    if o.None? || o.value.Null? then "" else JsString(o.value)
  }

  /** A column of the `INSERT INTO` list: body properties get `data__`. */
  function ColumnText(c: Column): string
  {
    if c.place == Body then "data__" + PropKey(c.name) else JoinText(c.name)
  }

  /** A value of the `SELECT` list. */
  function ValueText(c: Column): string
  {
    "'{{ " + PropKey(c.name) + " }}'"
  }

  function Header(provider: string, service: string, resource: string): string
  {
    "/*+ create */\nINSERT INTO " + provider + "." + service + "." + resource + " (\n"
  }

  const EndpointValue := ",\n'{{ endpoint }}'\n;\n"

  /** The two lists of the statement, column names then placeholders. */
  function Lists(cols: seq<Column>): string
  {
    Join(seq(|cols|, i requires 0 <= i < |cols| => ColumnText(cols[i])), ",\n") +
    "\n)\nSELECT \n" +
    Join(seq(|cols|, i requires 0 <= i < |cols| => ValueText(cols[i])), ",\n")
  }

  /** `generateInsertSql` for the columns given. */
  function InsertSql(provider: string, service: string, resource: string, cols: seq<Column>): string
  {
    if cols == [] then "-- No properties found for INSERT"
    else Header(provider, service, resource) + Lists(cols) + EndpointValue
  }

  /** The columns of an insert are never empty, since `name` is always
      among them. */
  lemma InsertColumnsNonEmpty(operation: Option<Json>, requiredOnly: bool)
    requires InsertColumns(operation, requiredOnly).Ok?
    ensures InsertColumns(operation, requiredOnly).value != []
  {
    InsertColumnsShape(operation, requiredOnly);
  }

  /** So the SQL is always an `INSERT INTO ... SELECT` ending with the
      endpoint value, and the message for no properties is never produced. */
  lemma InsertSqlAlwaysInsert(provider: string, service: string, resource: string, operation: Option<Json>, requiredOnly: bool)
    requires InsertColumns(operation, requiredOnly).Ok?
    ensures var sql := InsertSql(provider, service, resource, InsertColumns(operation, requiredOnly).value);
            StartsWith(sql, Header(provider, service, resource)) && EndsWith(sql, EndpointValue) &&
            sql != "-- No properties found for INSERT"
  {
    var cols := InsertColumns(operation, requiredOnly).value;
    InsertColumnsNonEmpty(operation, requiredOnly);
    var h := Header(provider, service, resource);
    var sql := h + Lists(cols) + EndpointValue;
    assert sql[..|h|] == h;
    assert sql[|sql| - |EndpointValue|..] == EndpointValue;
    assert sql[0] == '/';
  }

  // ---------------------------------------------------------------------
  // wordWrap

  /** One word of the loop: it joins the current line when the line stays
      within `max`, otherwise the current line is pushed and the word starts
      the next one. */
  function WrapStep(st: (seq<string>, string), w: string, max: int): (seq<string>, string)
  {
    if |st.1| + |w| + 1 <= max then (st.0, st.1 + (if |st.1| > 0 then " " else "") + w)
    else (st.0 + [st.1], w)
  }

  /** The lines pushed and the current line after the first `n` words. */
  function WrapUpTo(words: seq<string>, max: int, n: nat): (seq<string>, string)
    requires n <= |words|
  {
    if n == 0 then ([], "") else WrapStep(WrapUpTo(words, max, n - 1), words[n - 1], max)
  }

  /** `wordWrap(text, maxLineLength)`. */
  function WordWrap(text: string, max: int): seq<string>
  {
    if text == "" then [""]
    else
      var words := Split(text, ' ');
      var st := WrapUpTo(words, max, |words|);
      if |st.1| > 0 then st.0 + [st.1] else st.0
  }

  /** The loop as written. */
  method WrapText(text: string, max: int) returns (lines: seq<string>)
    ensures lines == WordWrap(text, max)
  {
    if text == "" {
      return [""];
    }
    var words := Split(text, ' ');
    lines := [];
    var current := "";
    var i := 0;
    while i < |words|
      invariant 0 <= i <= |words|
      invariant WrapUpTo(words, max, i) == (lines, current)
    {
      var w := words[i];
      if |current| + |w| + 1 <= max {
        current := current + (if |current| > 0 then " " else "") + w;
      } else {
        lines := lines + [current];
        current := w;
      }
      assert (lines, current) == WrapStep(WrapUpTo(words, max, i), w, max);
      i := i + 1;
    }
    if |current| > 0 {
      lines := lines + [current];
    }
  }

  /** A line fits, or holds a single word. */
  predicate Fits(line: string, max: int)
  {
    |line| <= max || ' ' !in line
  }

  lemma {:induction false} WrapUpToFits(words: seq<string>, max: int, n: nat)
    requires n <= |words|
    requires forall i :: 0 <= i < |words| ==> ' ' !in words[i]
    ensures var st := WrapUpTo(words, max, n);
            Fits(st.1, max) && forall i :: 0 <= i < |st.0| ==> Fits(st.0[i], max)
  {
    if n > 0 {
      WrapUpToFits(words, max, n - 1);
    }
  }

  /** Every line is at most `maxLineLength` long or is a single word. */
  lemma WordWrapFits(text: string, max: int)
    ensures forall i :: 0 <= i < |WordWrap(text, max)| ==> Fits(WordWrap(text, max)[i], max)
  {
    if text != "" {
      var words := Split(text, ' ');
      WrapUpToFits(words, max, |words|);
    }
  }

  /** The non-empty words of a text. */
  function Words(parts: seq<string>): seq<string>
  {
    if parts == [] then []
    else Words(parts[..|parts| - 1]) + (if parts[|parts| - 1] == "" then [] else [parts[|parts| - 1]])
  }

  lemma {:induction false} WordsAppend(a: seq<string>, b: seq<string>)
    ensures Words(a + b) == Words(a) + Words(b)
    decreases |b|
  {
    if b == [] {
      assert a + b == a;
    } else {
      WordsAppend(a, b[..|b| - 1]);
      assert (a + b)[..|a + b| - 1] == a + b[..|b| - 1];
    }
  }

  /** The non-empty words of the lines, line after line. */
  function LineWords(lines: seq<string>): seq<string>
  {
    if lines == [] then [] else LineWords(lines[..|lines| - 1]) + Words(Split(lines[|lines| - 1], ' '))
  }

  lemma WordsOfEmptyLine()
    ensures Words(Split("", ' ')) == []
  {
    assert Split("", ' ') == [""];
    assert Words([""]) == Words([]) + [];
  }

  lemma WordsOfWord(w: string)
    requires ' ' !in w
    ensures Words(Split(w, ' ')) == Words([w])
  {
    SplitNoSeparator(w, ' ');
  }

  /** Joining a word to a line with a space adds just that word. */
  lemma WordsOfJoined(line: string, w: string)
    requires ' ' !in w
    ensures Words(Split(line + " " + w, ' ')) == Words(Split(line, ' ')) + Words([w])
  {
    SplitConcat(line, w, ' ');
    assert line + " " + w == line + [' '] + w;
    WordsAppend(Split(line, ' '), Split(w, ' '));
    WordsOfWord(w);
  }

  lemma LineWordsSnoc(lines: seq<string>, line: string)
    ensures LineWords(lines + [line]) == LineWords(lines) + Words(Split(line, ' '))
  {
    assert (lines + [line])[..|lines|] == lines;
  }

  /** The word joins a non-empty current line. */
  lemma StepJoinWords(lines: seq<string>, line: string, w: string)
    requires ' ' !in w
    ensures LineWords(lines) + Words(Split(line + " " + w, ' ')) ==
            LineWords(lines) + Words(Split(line, ' ')) + Words([w])
  {
    WordsOfJoined(line, w);
  }

  /** The word starts an empty current line. */
  lemma StepFirstWords(lines: seq<string>, w: string)
    requires ' ' !in w
    ensures LineWords(lines) + Words(Split(w, ' ')) ==
            LineWords(lines) + Words(Split("", ' ')) + Words([w])
  {
    WordsOfEmptyLine();
    WordsOfWord(w);
  }

  /** The current line is pushed and the word starts the next one. */
  lemma StepBreakWords(lines: seq<string>, line: string, w: string)
    requires ' ' !in w
    ensures LineWords(lines + [line]) + Words(Split(w, ' ')) ==
            LineWords(lines) + Words(Split(line, ' ')) + Words([w])
  {
    LineWordsSnoc(lines, line);
    WordsOfWord(w);
  }

  /** One step moves the word from the text to the lines. */
  lemma WrapStepWords(st: (seq<string>, string), w: string, max: int)
    requires ' ' !in w
    ensures var nx := WrapStep(st, w, max);
            LineWords(nx.0) + Words(Split(nx.1, ' ')) ==
            LineWords(st.0) + Words(Split(st.1, ' ')) + Words([w])
  {
    if |st.1| + |w| + 1 <= max {
      if |st.1| > 0 {
        assert WrapStep(st, w, max) == (st.0, st.1 + " " + w);
        StepJoinWords(st.0, st.1, w);
      } else {
        assert st.1 + "" + w == w;
        StepFirstWords(st.0, w);
      }
    } else {
      StepBreakWords(st.0, st.1, w);
    }
  }

  /** The non-empty words among the first `n`. */
  function WordsUpTo(words: seq<string>, n: nat): seq<string>
    requires n <= |words|
  {
    if n == 0 then [] else WordsUpTo(words, n - 1) + Words([words[n - 1]])
  }

  lemma {:induction false} WordsUpToAll(words: seq<string>, n: nat)
    requires n <= |words|
    ensures WordsUpTo(words, n) == Words(words[..n])
  {
    if n > 0 {
      WordsUpToAll(words, n - 1);
      assert words[..n] == words[..n - 1] + [words[n - 1]];
      WordsSnoc(words[..n - 1], words[n - 1]);
    }
  }

  lemma WordsSnoc(p: seq<string>, w: string)
    ensures Words(p + [w]) == Words(p) + Words([w])
  {
    assert (p + [w])[..|p|] == p;
    assert [w][..0] == [];
  }

  lemma {:induction false} WrapUpToWords(words: seq<string>, max: int, n: nat)
    requires n <= |words|
    requires forall i :: 0 <= i < |words| ==> ' ' !in words[i]
    ensures var st := WrapUpTo(words, max, n);
            LineWords(st.0) + Words(Split(st.1, ' ')) == WordsUpTo(words, n)
  {
    if n == 0 {
      WrapUpToWordsBase(words, max);
    } else {
      WrapUpToWords(words, max, n - 1);
      WrapUpToWordsStep(words, max, n);
    }
  }

  lemma WrapUpToWordsBase(words: seq<string>, max: int)
    ensures var st := WrapUpTo(words, max, 0);
            LineWords(st.0) + Words(Split(st.1, ' ')) == WordsUpTo(words, 0)
  {
    WordsOfEmptyLine();
  }

  lemma WrapUpToWordsStep(words: seq<string>, max: int, n: nat)
    requires 0 < n <= |words| && ' ' !in words[n - 1]
    requires var st := WrapUpTo(words, max, n - 1);
             LineWords(st.0) + Words(Split(st.1, ' ')) == WordsUpTo(words, n - 1)
    ensures var st := WrapUpTo(words, max, n);
            LineWords(st.0) + Words(Split(st.1, ' ')) == WordsUpTo(words, n)
  {
    WrapStepWords(WrapUpTo(words, max, n - 1), words[n - 1], max);
  }

  /** The lines hold the words of the text, in order: the non-empty words
      of the lines, line after line, are exactly those of the text. */
  lemma WordWrapWords(text: string, max: int)
    ensures LineWords(WordWrap(text, max)) == Words(Split(text, ' '))
  {
    if text == "" {
      WordsOfEmptyLine();
      LineWordsSnoc([], "");
    } else {
      WrappedWords(text, max);
    }
  }

  lemma WrappedWords(text: string, max: int)
    requires text != ""
    ensures LineWords(WordWrap(text, max)) == Words(Split(text, ' '))
  {
    var words := Split(text, ' ');
    var st := WrapUpTo(words, max, |words|);
    WrapUpToWords(words, max, |words|);
    WordsUpToAll(words, |words|);
    assert words[..|words|] == words;
    if |st.1| > 0 {
      LineWordsSnoc(st.0, st.1);
    } else {
      assert st.1 == "";
      WordsOfEmptyLine();
      assert WordWrap(text, max) == st.0;
    }
  }

  lemma {:induction false} WrapUpToLeading(words: seq<string>, max: int, n: nat)
    requires 1 <= n <= |words| && |words[0]| + 1 > max
    ensures |WrapUpTo(words, max, n).0| > 0 && WrapUpTo(words, max, n).0[0] == ""
  {
    if n > 1 {
      WrapUpToLeading(words, max, n - 1);
    }
  }

  /** A first word too long for the line leaves an empty first line. */
  lemma WordWrapLeadingEmpty(text: string, max: int)
    requires text != "" && |Split(text, ' ')[0]| + 1 > max
    ensures |WordWrap(text, max)| > 0 && WordWrap(text, max)[0] == ""
  {
    WrapUpToLeading(Split(text, ' '), max, |Split(text, ' ')|);
  }

  lemma {:induction false} WrapUpToSpaces(words: seq<string>, max: int, n: nat)
    requires n <= |words| && max >= 1
    requires forall i :: 0 <= i < |words| ==> words[i] == ""
    ensures WrapUpTo(words, max, n) == ([], "")
  {
    if n > 0 {
      WrapUpToSpaces(words, max, n - 1);
      assert "" + (if |""| > 0 then " " else "") + words[n - 1] == "";
    }
  }

  lemma {:induction false} SplitSpaces(text: string)
    requires forall i :: 0 <= i < |text| ==> text[i] == ' '
    ensures forall i :: 0 <= i < |Split(text, ' ')| ==> Split(text, ' ')[i] == ""
    decreases |text|
  {
    if text != [] {
      SplitSpaces(text[1..]);
    }
  }

  /** A text made only of spaces gives no line at all. */
  lemma WordWrapSpaces(text: string, max: int)
    requires text != "" && max >= 1
    requires forall i :: 0 <= i < |text| ==> text[i] == ' '
    ensures WordWrap(text, max) == []
  {
    SplitSpaces(text);
    WrapUpToSpaces(Split(text, ' '), max, |Split(text, ' ')|);
  }

  // ---------------------------------------------------------------------
  // generateManifestYaml

  /** `prop.description || ''`, completed with the required note. */
  function Description(c: Column, resourceName: string): Json
  {
    var d := if Truthy(c.description) then c.description else Str("");
    if c.required then
      Str(if Truthy(d) then JsString(d) + " (Required parameter for the " + resourceName + " resource.)"
          else "Required parameter for the " + resourceName + " resource.")
    else d
  }

  /** The wrapped description lines: the first follows `>-`. */
  function DescLinesUpTo(lines: seq<string>, n: nat): string
    requires n <= |lines|
  {
    if n == 0 then ""
    else DescLinesUpTo(lines, n - 1) + (if n == 1 then "-\n        " else "        ") + lines[n - 1] + "\n"
  }

  /** The entry of one column; a description that is truthy but not a
      string has no `split`. */
  function ColumnYaml(c: Column, resourceName: string): Result<string>
  {
    var head := "    - name: " + PropKey(c.name) + "\n      value: " + PropKey(c.typ) + "\n";
    var d := Description(c, resourceName);
    if !Truthy(d) then Ok(head)
    else if !d.Str? then Err(TypeError + ": text.split is not a function")
    else
      var lines := WordWrap(d.s, 70);
      Ok(head + "      description: >" + DescLinesUpTo(lines, |lines|))
  }

  function YamlUpTo(cols: seq<Column>, resourceName: string, n: nat): Result<string>
    requires n <= |cols|
  {
    ConcatEach(c => ColumnYaml(c, resourceName), cols, n)
  }

  function YamlHeader(resourceName: string): string
  {
    "# Description fields below are for documentation purposes only and are not required in the manifest\n" +
    "- name: " + resourceName + "\n  props:\n" +
    "    - name: endpoint\n      value: string\n      description: Required parameter for the " + resourceName + " resource.\n"
  }

  /** `generateManifestYaml`: the endpoint entry, then one entry per column
      of all properties. */
  function ManifestYaml(operation: Option<Json>, resourceName: string): Result<string>
  {
    var cols :- InsertColumns(operation, false);
    WithHeader(resourceName, YamlUpTo(cols, resourceName, |cols|))
  }

  /** The header before the column entries, unless writing them threw. */
  function WithHeader(resourceName: string, entries: Result<string>): Result<string>
  {
    var e :- entries;
    Ok(YamlHeader(resourceName) + e)
  }

  /** A required column always gets a description, which carries the
      required note. */
  lemma RequiredDescription(c: Column, resourceName: string)
    requires c.required
    ensures var d := Description(c, resourceName);
            var note := "Required parameter for the " + resourceName + " resource.";
            d.Str? && Occurs(d.s, note) &&
            (!Truthy(c.description) ==> d.s == note)
  {
    var d := Description(c, resourceName);
    var note := "Required parameter for the " + resourceName + " resource.";
    if Truthy(c.description) {
      var pre := JsString(c.description) + " (";
      NoteInParens(JsString(c.description), resourceName);
      OccursMiddle(pre, note, ")");
    } else {
      OccursMiddle("", note, "");
      assert "" + note + "" == note;
    }
  }

  lemma NoteInParens(t: string, resourceName: string)
    ensures t + " (Required parameter for the " + resourceName + " resource.)"
            == (t + " (") + ("Required parameter for the " + resourceName + " resource.") + ")"
  {
    assert " (Required parameter for the " == " (" + "Required parameter for the ";
    assert " resource.)" == " resource." + ")";
  }

  /** The description loop as written. */
  method DescriptionLines(lines: seq<string>) returns (yaml: string)
    ensures yaml == DescLinesUpTo(lines, |lines|)
  {
    yaml := "";
    var i := 0;
    while i < |lines|
      invariant 0 <= i <= |lines|
      invariant yaml == DescLinesUpTo(lines, i)
    {
      if i == 0 {
        yaml := yaml + "-\n        " + lines[i] + "\n";
      } else {
        yaml := yaml + "        " + lines[i] + "\n";
      }
      i := i + 1;
    }
  }

  /** One turn of the manifest loop. */
  method ColumnEntry(c: Column, resourceName: string) returns (r: Result<string>)
    ensures r == ColumnYaml(c, resourceName)
  {
    var d := Description(c, resourceName);
    var entry := "    - name: " + PropKey(c.name) + "\n      value: " + PropKey(c.typ) + "\n";
    if Truthy(d) {
      if !d.Str? {
        return Err(TypeError + ": text.split is not a function");
      }
      var lines := WrapText(d.s, 70);
      var block := DescriptionLines(lines);
      entry := entry + "      description: >" + block;
    }
    return Ok(entry);
  }

  /** The loop over the columns. */
  method ColumnEntries(cols: seq<Column>, resourceName: string) returns (r: Result<string>)
    ensures r == YamlUpTo(cols, resourceName, |cols|)
  {
    var yaml := "";
    var f := c => ColumnYaml(c, resourceName);
    for i := 0 to |cols|
      invariant ConcatEach(f, cols, i) == Ok(yaml)
    {
      ConcatEachStep(f, cols, i, yaml);
      var entry := ColumnEntry(cols[i], resourceName);
      if entry.Err? {
        ConcatEachErrStays(f, cols, i + 1, |cols|);
        return Err(entry.error);
      }
      yaml := yaml + entry.value;
    }
    return Ok(yaml);
  }

  /** `generateManifestYaml` as written. */
  method GenerateManifestYaml(operation: Option<Json>, resourceName: string) returns (r: Result<string>)
    ensures r == ManifestYaml(operation, resourceName)
  {
    var cols := GetInsertProperties(operation, false);
    if cols.Err? {
      return Err(cols.error);
    }
    var entries := ColumnEntries(cols.value, resourceName);
    return WithHeader(resourceName, entries);
  }

  // ---------------------------------------------------------------------
  // createInsertExample

  const Tabs := "<Tabs\n    defaultValue=\"all\"\n    values={[\n" +
                "        { label: 'Required Properties', value: 'required' },\n" +
                "        { label: 'All Properties', value: 'all', },\n" +
                "        { label: 'Manifest', value: 'manifest', },\n" +
                "    ]}\n>\n"

  function ExampleText(description: string, allSql: string, requiredSql: string, yaml: string): string
  {
    "\n## `INSERT` example\n\n" + description + "\n\n" + Tabs +
    "<TabItem value=\"all\">\n\n```sql\n" + allSql + "```\n</TabItem>\n\n" +
    "<TabItem value=\"required\">\n\n```sql\n" + requiredSql + "```\n</TabItem>\n\n" +
    "<TabItem value=\"manifest\">\n\n```yaml\n" + yaml + "```\n</TabItem>\n</Tabs>\n"
  }

  /** `createInsertExample`: nothing without methods or insert methods,
      otherwise the example of the first insert method. */
  function CreateInsertExample(provider: string, service: string, resource: string, resourceData: Json): Result<string>
  {
    if !Truthy(resourceData) || !TruthyOpt(Get(resourceData, "methods")) then Ok("")
    else
      var ms :- VerbMethods(resourceData, "insert");
      if ms == [] then Ok("")
      else
        var op := Get(ms[0], "operation");
        var desc :- Read(op, "description");
        var all :- InsertColumns(op, false);
        var required :- InsertColumns(op, true);
        var yaml :- ManifestYaml(op, resource);
        Ok(ExampleText(JsString(Or(desc, Str(""))), InsertSql(provider, service, resource, all),
                       InsertSql(provider, service, resource, required), yaml))
  }

  lemma ExampleTextNonEmpty(description: string, allSql: string, requiredSql: string, yaml: string)
    ensures ExampleText(description, allSql, requiredSql, yaml) != ""
  {
    assert ExampleText(description, allSql, requiredSql, yaml)[0] == '\n';
  }

  /** The example is empty exactly when the resource has no methods or no
      insert method. */
  lemma CreateInsertExampleEmpty(provider: string, service: string, resource: string, resourceData: Json)
    requires CreateInsertExample(provider, service, resource, resourceData).Ok?
    ensures CreateInsertExample(provider, service, resource, resourceData).value == "" <==>
              !Truthy(resourceData) || !TruthyOpt(Get(resourceData, "methods")) ||
              VerbMethods(resourceData, "insert") == Ok([])
  {
    if Truthy(resourceData) && TruthyOpt(Get(resourceData, "methods")) && VerbMethods(resourceData, "insert") != Ok([]) {
      var ms := VerbMethods(resourceData, "insert").value;
      var op := Get(ms[0], "operation");
      var desc := Read(op, "description").value;
      ExampleTextNonEmpty(JsString(Or(desc, Str(""))),
                          InsertSql(provider, service, resource, InsertColumns(op, false).value),
                          InsertSql(provider, service, resource, InsertColumns(op, true).value),
                          ManifestYaml(op, resource).value);
    }
  }

  /** Otherwise the example shows the first insert method: its columns,
      all and required, and its manifest. */
  lemma CreateInsertExampleFirst(provider: string, service: string, resource: string, resourceData: Json)
    requires CreateInsertExample(provider, service, resource, resourceData).Ok?
    requires CreateInsertExample(provider, service, resource, resourceData).value != ""
    ensures VerbMethods(resourceData, "insert").Ok? && VerbMethods(resourceData, "insert").value != []
    ensures var op := Get(VerbMethods(resourceData, "insert").value[0], "operation");
            InsertColumns(op, false).Ok? && InsertColumns(op, true).Ok? && ManifestYaml(op, resource).Ok? &&
            CreateInsertExample(provider, service, resource, resourceData).value ==
              ExampleText(JsString(Or(Get(op.value, "description"), Str(""))),
                          InsertSql(provider, service, resource, InsertColumns(op, false).value),
                          InsertSql(provider, service, resource, InsertColumns(op, true).value),
                          ManifestYaml(op, resource).value)
  {
  }
}
