/** The text JavaScript makes of a value: `String(x)` (also what a template
    literal `${x}` and a computed property key produce), `arr.join(sep)` and
    `JSON.stringify(x)`. Numbers are integers, as everywhere in this model. */
module JsonText {
  import opened Base
  import opened Text
  import opened JsonModel

  function DigitChar(d: nat): char
    requires d < 10
  {
    ('0' as int + d) as char
  }

  /** The decimal digits of a natural number, most significant first. */
  function NatToString(n: nat): (s: string)
    ensures |s| >= 1
    ensures forall i :: 0 <= i < |s| ==> IsDigit(s[i])
    decreases n
  {
    if n < 10 then [DigitChar(n)] else NatToString(n / 10) + [DigitChar(n % 10)]
  }

  /** Reads a string of decimal digits back as a number. */
  function ParseDigits(s: string): nat
    decreases |s|
  {
    if s == [] then 0
    else
      var d := s[|s| - 1] as int - '0' as int;
      ParseDigits(s[..|s| - 1]) * 10 + (if 0 <= d then d else 0)
  }

  /** Decimal printing loses nothing: reading the digits back gives `n`. */
  lemma {:induction false} NatToStringRoundTrip(n: nat)
    ensures ParseDigits(NatToString(n)) == n
    decreases n
  {
    if n >= 10 {
      NatToStringRoundTrip(n / 10);
      var s := NatToString(n);
      assert s[..|s| - 1] == NatToString(n / 10);
    }
  }

  /** `String(n)` for an integer. */
  function IntToString(n: int): string
  {
    if n < 0 then "-" + NatToString(-n) else NatToString(n)
  }

  /** `String(j)`: arrays print their elements joined by commas, with `null`
      elements printed as nothing, and every object prints the same. */
  function JsString(j: Json): string
    decreases j, 1
  {
    match j
    case Null => "null"
    case Bool(b) => if b then "true" else "false"
    case Num(n) => IntToString(n)
    case Str(s) => s
    case Arr(items) => ArrayJoin(items, ",")
    case Obj(_) => "[object Object]"
  }

  /** `items.join(sep)`. */
  function ArrayJoin(items: seq<Json>, sep: string): string
    decreases items, 1
  {
    Join(ElementStrings(items), sep)
  }

  /** The string of each array element, `null` giving the empty string. */
  function ElementStrings(items: seq<Json>): seq<string>
    decreases items, 0
  {
    if items == [] then []
    else [if items[0].Null? then "" else JsString(items[0])] + ElementStrings(items[1..])
  }

  /** The key a property read `obj[x]` uses for the value `x`; a missing
      value (`undefined`) becomes the key "undefined". */
  function PropKey(o: Option<Json>): string
  {
    if o.None? then "undefined" else JsString(o.value)
  }

  function HexDigit(d: nat): char
    requires d < 16
  {
    if d < 10 then DigitChar(d) else ('a' as int + d - 10) as char
  }

  /** The escape `JSON.stringify` writes for one character of a string. */
  function EscapeChar(c: char): string
  {
    if c == '"' then "\\\""
    else if c == '\\' then "\\\\"
    else if c == '\n' then "\\n"
    else if c == '\r' then "\\r"
    else if c == '\t' then "\\t"
    else if c == 8 as char then "\\b"
    else if c == 12 as char then "\\f"
    else if (c as int) < 0x20 then "\\u00" + [HexDigit(c as int / 16), HexDigit(c as int % 16)]
    else [c]
  }

  /** A string as a JSON string literal. */
  function Quote(s: string): string
  {
    "\"" + EscapeCharsFrom(s, 0) + "\""
  }

  function EscapeCharsFrom(s: string, i: nat): string
    requires i <= |s|
    decreases |s| - i
  {
    if i == |s| then [] else EscapeChar(s[i]) + EscapeCharsFrom(s, i + 1)
  }

  /** `JSON.stringify(j)` without indentation. */
  function Stringify(j: Json): string
    decreases j, 1
  {
    match j
    case Null => "null"
    case Bool(b) => if b then "true" else "false"
    case Num(n) => IntToString(n)
    case Str(s) => Quote(s)
    case Arr(items) => "[" + Join(StringifyItems(items), ",") + "]"
    case Obj(es) => "{" + Join(StringifyMembers(es), ",") + "}"
  }

  /** The text of each array element. */
  function StringifyItems(items: seq<Json>): seq<string>
    decreases items, 0
  {
    if items == [] then [] else [Stringify(items[0])] + StringifyItems(items[1..])
  }

  /** The `"key":value` text of each object member. */
  function StringifyMembers(es: seq<Entry>): seq<string>
    decreases es, 0
  {
    if es == [] then []
    else [Quote(es[0].key) + ":" + Stringify(es[0].value)] + StringifyMembers(es[1..])
  }

  /** How the documentation helpers print a field value: arrays as
      `[a, b]`, objects as JSON, anything else through `String`. */
  function FieldText(v: Json): string
  {
    match v
    case Arr(items) => "[" + ArrayJoin(items, ", ") + "]"
    case Obj(_) => Stringify(v)
    case _ => JsString(v)
  }
}
