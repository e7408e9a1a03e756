/** The lifecycle-method examples of a resource page
    (src/docgen/resource/examples/exec-example.js): one `EXEC` tab per
    method that no SQL verb refers to, with its parameters and its request
    body. */
module ExecExample {
  import opened Base
  import opened Text
  import opened JsonModel
  import opened JsonText
  import opened ExampleParts
  import opened DocMethods

  const Sep := ", \n"

  // ---------------------------------------------------------------------
  // Parameters

  /** `@p='{{ p }}' --required`. */
  function RequiredItem(p: string): string
  {
    "@" + p + "='{{ " + p + " }}' --required"
  }

  /** `@p={{ p }}` for a boolean, `@p='{{ p }}'` otherwise. */
  function OptionalItem(e: Entry): string
  {
    "@" + e.key + "=" +
    (if Get(e.value, "type") == Some(Str("boolean")) then "{{ " + e.key + " }}" else "'{{ " + e.key + " }}'")
  }

  function RequiredItems(required: seq<string>): (items: seq<string>)
    ensures |items| == |required|
  {
    seq(|required|, i requires 0 <= i < |required| => RequiredItem(required[i]))
  }

  function OptionalItems(optional: seq<Entry>): (items: seq<string>)
    ensures |items| == |optional|
  {
    seq(|optional|, i requires 0 <= i < |optional| => OptionalItem(optional[i]))
  }

  /** Reading `type` of a `null` optional parameter throws. */
  predicate OptionalReadable(optional: seq<Entry>)
  {
    forall i :: 0 <= i < |optional| ==> !optional[i].value.Null?
  }

  /** The two `forEach` loops over the parameters: a separator after every
      required line but the last, and after that one too when optional
      lines follow; a separator after every optional line but the last. */
  function ParamsText(required: seq<string>, optional: seq<Entry>): Result<string>
  {
    if OptionalReadable(optional) then
      Ok(Listed(RequiredItems(required), Sep, if |optional| > 0 then Sep else "", |required|) +
         Listed(OptionalItems(optional), Sep, "", |optional|))
    else Err(TypeError + ": cannot read properties of null (reading 'type')")
  }

  /** All the parameter lines, required ones first, are joined by the
      separator. */
  lemma ParamsJoined(required: seq<string>, optional: seq<Entry>)
    requires ParamsText(required, optional).Ok?
    ensures ParamsText(required, optional).value == Join(RequiredItems(required) + OptionalItems(optional), Sep)
  {
    var rs := RequiredItems(required);
    var os := OptionalItems(optional);
    if |os| > 0 {
      ListedJoin(os, Sep, "");
    }
    if |rs| > 0 {
      ListedJoin(rs, Sep, if |os| > 0 then Sep else "");
    }
    if |rs| == 0 {
      assert rs + os == os;
    } else if |os| == 0 {
      assert rs + os == rs;
    } else {
      JoinAppend(rs, os, Sep);
    }
  }

  /** The parameter loops as written. */
  method RenderParams(required: seq<string>, optional: seq<Entry>) returns (r: Result<string>)
    ensures r == ParamsText(required, optional)
  {
    ghost var rs := RequiredItems(required);
    ghost var os := OptionalItems(optional);
    ghost var last := if |optional| > 0 then Sep else "";
    var text := "";
    var i := 0;
    while i < |required|
      invariant 0 <= i <= |required|
      invariant text == Listed(rs, Sep, last, i)
    {
      ListedStep(rs, Sep, last, i);
      text := text + RequiredItem(required[i]);
      if i < |required| - 1 || |optional| > 0 {
        text := text + Sep;
      }
      i := i + 1;
    }
    var rest := "";
    var j := 0;
    while j < |optional|
      invariant 0 <= j <= |optional|
      invariant rest == Listed(os, Sep, "", j)
      invariant OptionalReadable(optional[..j])
    {
      var details := optional[j].value;
      if details.Null? {
        return Err(TypeError + ": cannot read properties of null (reading 'type')");
      }
      ListedStep(os, Sep, "", j);
      rest := rest + OptionalItem(optional[j]);
      if j < |optional| - 1 {
        rest := rest + Sep;
      }
      assert optional[..j + 1] == optional[..j] + [optional[j]];
      j := j + 1;
    }
    assert optional[..j] == optional;
    return Ok(text + rest);
  }

  // ---------------------------------------------------------------------
  // Request body

  /** One turn of the filter over the body properties: read-only ones are
      dropped; reading `readOnly` of `null` throws. */
  function BodyTurn(e: Entry): (r: Result<Option<Entry>>)
    ensures r.Err? <==> e.value.Null?
    ensures r.Ok? && r.value.Some? ==> r.value.value == e
  {
    if e.value.Null? then Err(TypeError + ": cannot read properties of null (reading 'readOnly')")
    else if Get(e.value, "readOnly") == Some(Bool(true)) then Ok(None)
    else Ok(Some(e))
  }

  function BodyTurns(props: seq<Entry>): (ts: seq<Result<Option<Entry>>>)
    ensures |ts| == |props|
  {
    seq(|props|, i requires 0 <= i < |props| => BodyTurn(props[i]))
  }

  /** The body properties that are not read-only, in order. */
  function BodyProps(props: seq<Entry>): Result<seq<Entry>>
  {
    Gather(BodyTurns(props), |props|)
  }

  /** The filter keeps exactly the properties not marked `readOnly: true`. */
  lemma BodyPropsExact(props: seq<Entry>)
    ensures BodyProps(props).Ok? <==> forall i :: 0 <= i < |props| ==> !props[i].value.Null?
    ensures BodyProps(props).Ok? ==>
              forall e :: e in BodyProps(props).value <==>
                e in props && Get(e.value, "readOnly") != Some(Bool(true))
  {
    var ts := BodyTurns(props);
    GatherExact(ts, |props|);
    assert forall i :: 0 <= i < |props| ==> ts[i] == BodyTurn(props[i]);
    if BodyProps(props).Ok? {
      forall e | e in props && Get(e.value, "readOnly") != Some(Bool(true))
        ensures e in BodyProps(props).value
      {
        var i :| 0 <= i < |props| && props[i] == e;
        assert ts[i] == Ok(Some(e));
      }
    }
  }

  /** A number, integer or boolean is written bare, anything else as a
      string. */
  predicate Quoted(details: Json)
  {
    var t := Get(details, "type");
    t != Some(Str("number")) && t != Some(Str("integer")) && t != Some(Str("boolean"))
  }

  function BodyItem(e: Entry): string
  {
    "\"" + e.key + "\": " + (if Quoted(e.value) then "\"{{ " + e.key + " }}\"" else "{{ " + e.key + " }}")
  }

  function BodyItems(props: seq<Entry>): (items: seq<string>)
    ensures |items| == |props|
  {
    seq(|props|, i requires 0 <= i < |props| => BodyItem(props[i]))
  }

  /** `requestBody.properties`, when the `@@json` block is written. */
  function BodyProperties(details: Json): Option<seq<Entry>>
  {
    var body := Get(details, "requestBody");
    if TruthyOpt(body) && TruthyOpt(Get(body.value, "properties")) && |Entries(Get(body.value, "properties").value)| > 0
    then Some(Entries(Get(body.value, "properties").value))
    else None
  }

  /** The `@@json` block, after a separating line when there are
      parameters. */
  function BodyText(details: Json, hasParams: bool): Result<string>
  {
    match BodyProperties(details)
    case None => Ok("")
    case Some(props) =>
      var kept :- BodyProps(props);
      Ok((if hasParams then " \n" else "") + "@@json=\n'{\n" + Listed(BodyItems(kept), Sep, "\n", |kept|) + "}'")
  }

  /** The block is there exactly when the body has properties; it lists the
      properties that are not read-only, one per line, separated by
      commas. */
  lemma BodyTextShape(details: Json, hasParams: bool)
    requires BodyText(details, hasParams).Ok?
    ensures var text := BodyText(details, hasParams).value;
            (text == "" <==> BodyProperties(details).None?) &&
            (BodyProperties(details).Some? ==>
               var kept := BodyProps(BodyProperties(details).value).value;
               text == (if hasParams then " \n" else "") + "@@json=\n'{\n" +
                       (if kept == [] then "" else Join(BodyItems(kept), Sep) + "\n") + "}'")
  {
    if BodyProperties(details).Some? {
      var kept := BodyProps(BodyProperties(details).value).value;
      if kept != [] {
        ListedJoin(BodyItems(kept), Sep, "\n");
      }
      var text := BodyText(details, hasParams).value;
      assert text[|text| - 1] == '\'';
    }
  }

  /** The filter and the loop over the kept properties as written. */
  method RenderBody(details: Json, hasParams: bool) returns (r: Result<string>)
    ensures r == BodyText(details, hasParams)
  {
    var found := BodyProperties(details);
    if found.None? {
      return Ok("");
    }
    var kept :- CollectTurns(BodyTurns(found.value));
    var text := if hasParams then " \n" else "";
    text := text + "@@json=\n'{\n";
    var lines := "";
    var i := 0;
    while i < |kept|
      invariant 0 <= i <= |kept|
      invariant lines == Listed(BodyItems(kept), Sep, "\n", i)
    {
      ListedStep(BodyItems(kept), Sep, "\n", i);
      lines := lines + BodyItem(kept[i]) + (if i < |kept| - 1 then Sep else "\n");
      i := i + 1;
    }
    return Ok(text + lines + "}'");
  }

  // ---------------------------------------------------------------------
  // One tab

  /** `opDescription || respDescription || 'No description available.'`. */
  function Description(details: Json): string
  {
    var op := Get(details, "opDescription");
    var resp := Get(details, "respDescription");
    if TruthyOpt(op) then JsString(op.value)
    else if TruthyOpt(resp) then JsString(resp.value)
    else "No description available."
  }

  /** The tab of one method; `null` details throw on the description. */
  function MethodTab(provider: string, service: string, resource: string, e: Entry): Result<string>
  {
    if e.value.Null? then Err(TypeError + ": cannot read properties of null (reading 'opDescription')")
    else
      var required := Keys(EntriesOr(Get(e.value, "requiredParams")));
      var optional := EntriesOr(Get(e.value, "optionalParams"));
      var params :- ParamsText(required, optional);
      var body :- BodyText(e.value, |required| + |optional| > 0);
      Ok("<TabItem value=\"" + e.key + "\">\n\n" + Description(e.value) +
         "\n\n```sql\nEXEC " + provider + "." + service + "." + resource + "." + e.key + " \n" +
         params + body + ";\n```\n</TabItem>\n")
  }

  /** The tab as written: its parameters and body rendered by their loops. */
  method RenderTab(provider: string, service: string, resource: string, e: Entry) returns (r: Result<string>)
    ensures r == MethodTab(provider, service, resource, e)
  {
    if e.value.Null? {
      return Err(TypeError + ": cannot read properties of null (reading 'opDescription')");
    }
    var required := Keys(EntriesOr(Get(e.value, "requiredParams")));
    var optional := EntriesOr(Get(e.value, "optionalParams"));
    var params :- RenderParams(required, optional);
    var body :- RenderBody(e.value, |required| + |optional| > 0);
    return Ok("<TabItem value=\"" + e.key + "\">\n\n" + Description(e.value) +
              "\n\n```sql\nEXEC " + provider + "." + service + "." + resource + "." + e.key + " \n" +
              params + body + ";\n```\n</TabItem>\n");
  }

  // ---------------------------------------------------------------------
  // createExecExamples

  function TabTurns(ms: seq<Entry>, provider: string, service: string, resource: string): (ts: seq<Result<string>>)
    ensures |ts| == |ms|
  {
    seq(|ms|, i requires 0 <= i < |ms| => MethodTab(provider, service, resource, ms[i]))
  }

  function Label(name: string): string
  {
    "        { label: '" + name + "', value: '" + name + "' }"
  }

  function Labels(ms: seq<Entry>): (ls: seq<string>)
    ensures |ls| == |ms|
  {
    seq(|ms|, i requires 0 <= i < |ms| => Label(ms[i].key))
  }

  function ExamplesText(ms: seq<Entry>, labels: string, tabs: string): string
    requires ms != []
  {
    "\n\n## Lifecycle Methods\n\n<Tabs\n    defaultValue=\"" + ms[0].key + "\"\n    values={[\n" +
    labels + "    ]}\n>\n" + tabs + "</Tabs>\n"
  }

  /** The examples for the given exec methods. */
  function ExamplesFor(ms: seq<Entry>, provider: string, service: string, resource: string): Result<string>
  {
    if ms == [] then Ok("")
    else
      var tabs :- Concat(TabTurns(ms, provider, service, resource), |ms|);
      Ok(ExamplesText(ms, Listed(Labels(ms), ",\n", "\n", |ms|), tabs))
  }

  /** `createExecExamples(...)`: nothing without exec methods, otherwise a
      tab per exec method. */
  function CreateExecExamples(provider: string, service: string, resource: string, resourceData: Json, api: Json): Result<string>
  {
    var ms :- SqlMethods(resourceData, api, "exec");
    ExamplesFor(ms, provider, service, resource)
  }

  /** The examples are empty exactly when there is no exec method;
      otherwise the first exec method is the default tab, the labels are
      separated by commas with none after the last, and every tab follows
      in order. */
  lemma ExamplesForShape(ms: seq<Entry>, provider: string, service: string, resource: string)
    requires ExamplesFor(ms, provider, service, resource).Ok?
    ensures var r := ExamplesFor(ms, provider, service, resource).value;
            (r == "" <==> ms == []) &&
            (ms != [] ==>
               Concat(TabTurns(ms, provider, service, resource), |ms|).Ok? &&
               r == ExamplesText(ms, Join(Labels(ms), ",\n") + "\n", Concat(TabTurns(ms, provider, service, resource), |ms|).value))
  {
    if ms != [] {
      ListedJoin(Labels(ms), ",\n", "\n");
      ExamplesTextNonEmpty(ms, Listed(Labels(ms), ",\n", "\n", |ms|),
                           Concat(TabTurns(ms, provider, service, resource), |ms|).value);
    }
  }

  /** So the page has lifecycle examples exactly when the resource has exec
      methods. */
  lemma CreateExecExamplesEmpty(provider: string, service: string, resource: string, resourceData: Json, api: Json)
    requires CreateExecExamples(provider, service, resource, resourceData, api).Ok?
    ensures SqlMethods(resourceData, api, "exec").Ok?
    ensures CreateExecExamples(provider, service, resource, resourceData, api).value == "" <==>
              SqlMethods(resourceData, api, "exec").value == []
  {
    ExamplesForShape(SqlMethods(resourceData, api, "exec").value, provider, service, resource);
  }

  /** The first exec method is the tab shown by default. */
  lemma ExamplesTextDefault(ms: seq<Entry>, labels: string, tabs: string)
    requires ms != []
    ensures StartsWith(ExamplesText(ms, labels, tabs),
                       "\n\n## Lifecycle Methods\n\n<Tabs\n    defaultValue=\"" + ms[0].key + "\"")
    ensures EndsWith(ExamplesText(ms, labels, tabs), tabs + "</Tabs>\n")
  {
    var head := "\n\n## Lifecycle Methods\n\n<Tabs\n    defaultValue=\"" + ms[0].key + "\"";
    var t := ExamplesText(ms, labels, tabs);
    assert t == head + ("\n    values={[\n" + labels + "    ]}\n>\n") + (tabs + "</Tabs>\n");
    assert t[..|head|] == head;
  }

  lemma ExamplesTextNonEmpty(ms: seq<Entry>, labels: string, tabs: string)
    requires ms != []
    ensures ExamplesText(ms, labels, tabs) != ""
  {
    var t := ExamplesText(ms, labels, tabs);
    assert |t| >= |"\n\n## Lifecycle Methods\n\n"|;
  }

  /** The label loop as written. */
  method LabelLines(ms: seq<Entry>) returns (text: string)
    ensures text == Listed(Labels(ms), ",\n", "\n", |ms|)
  {
    text := "";
    var i := 0;
    while i < |ms|
      invariant 0 <= i <= |ms|
      invariant text == Listed(Labels(ms), ",\n", "\n", i)
    {
      ListedStep(Labels(ms), ",\n", "\n", i);
      text := text + Label(ms[i].key) + (if i < |ms| - 1 then ",\n" else "\n");
      i := i + 1;
    }
  }

  /** The labels, then a tab per method. */
  method RenderExamples(ms: seq<Entry>, provider: string, service: string, resource: string) returns (r: Result<string>)
    ensures r == ExamplesFor(ms, provider, service, resource)
  {
    if ms == [] {
      return Ok("");
    }
    var labels := LabelLines(ms);
    ghost var turns := TabTurns(ms, provider, service, resource);
    var tabs := "";
    var i := 0;
    while i < |ms|
      invariant 0 <= i <= |ms|
      invariant Concat(turns, i) == Ok(tabs)
    {
      ConcatStep(turns, i, tabs);
      var tab := RenderTab(provider, service, resource, ms[i]);
      if tab.Err? {
        ConcatErrStays(turns, i + 1, |ms|);
        return Err(tab.error);
      }
      tabs := tabs + tab.value;
      i := i + 1;
    }
    return Ok(ExamplesText(ms, labels, tabs));
  }

  /** `createExecExamples` as written. */
  method CreateExecExamplesText(provider: string, service: string, resource: string, resourceData: Json, api: Json)
    returns (r: Result<string>)
    ensures r == CreateExecExamples(provider, service, resource, resourceData, api)
  {
    var ms :- GetSqlMethodsWithOrderedFields(resourceData, api, "exec");
    r := RenderExamples(ms, provider, service, resource);
  }
}
