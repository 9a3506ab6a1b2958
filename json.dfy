/** Parsed JSON values as the component code sees them after `response.json()`, with the
    JavaScript semantics the code leans on: truthiness (`a || b`), property access that
    throws on `null`/`undefined`, optional chaining (`a?.b`, `a?.[0]`), `String(v)` and
    `JSON.stringify(v)`. A JavaScript value that may be `undefined` is an `Option<Json>`. */
module Json {
  import opened Common
  import JsStrings

  datatype Json =
    | JNull
    | JBool(b: bool)
    | JNum(n: int)
    | JStr(s: string)
    | JArr(items: seq<Json>)
    | JObj(fields: seq<(string, Json)>)

  /** JavaScript truthiness; `undefined`, `null`, `false`, `0` and `""` are falsy. */
  predicate Truthy(v: Option<Json>) {
    match v
    case None => false
    case Some(j) =>
      match j
      case JNull => false
      case JBool(b) => b
      case JNum(n) => n != 0
      case JStr(s) => s != []
      case _ => true
  }

  /** `a || b` */
  function Or(a: Option<Json>, b: Option<Json>): (r: Option<Json>)
    ensures Truthy(a) ==> r == a
    ensures !Truthy(a) ==> r == b
  {
    if Truthy(a) then a else b
  }

  /** The message of the `TypeError` a browser raises when a property of `null` or
      `undefined` is read (the wording of the V8 engine). */
  function TypeErrorText(kind: string, key: string): string {
    "Cannot read properties of " + kind + " (reading '" + key + "')"
  }

  /** `v.key`: throws on `null` and `undefined`; on a non-object value the (non-built-in)
      property is `undefined`. */
  function Prop(v: Option<Json>, key: string): (r: Result<Option<Json>>)
    ensures r.Err? <==> (v.None? || v == Some(JNull))
    ensures r.Ok? ==> r.value == OptionalProp(v, key)
  {
    match v
    case None => Err(TypeErrorText("undefined", key))
    case Some(JNull) => Err(TypeErrorText("null", key))
    case Some(j) => Ok(OptionalProp(v, key))
  }

  /** `v?.key`: `undefined` when `v` is `null` or `undefined`. */
  function OptionalProp(v: Option<Json>, key: string): Option<Json> {
    match v
    case Some(JObj(fields)) => Get(fields, key)
    case _ => None
  }

  /** `v?.[0]`: the first element of an array, the first character of a string, member
      `"0"` of an object, and `undefined` otherwise. */
  function OptionalFirst(v: Option<Json>): Option<Json> {
    match v
    case Some(JArr(items)) => if |items| > 0 then Some(items[0]) else None
    case Some(JStr(s)) => if |s| > 0 then Some(JStr([s[0]])) else None
    case Some(JObj(fields)) => Get(fields, "0")
    case _ => None
  }

  /** `String(v)`, which is also what `localStorage.setItem` and `new Error(v)` store. */
  function ToText(v: Option<Json>): (r: string)
    ensures v.Some? && v.value.JStr? ==> r == v.value.s
  {
    match v
    case None => "undefined"
    case Some(j) => JsonText(j)
  }

  function JsonText(j: Json): string
    decreases j, 1
  {
    match j
    case JNull => "null"
    case JBool(b) => if b then "true" else "false"
    case JNum(n) => JsStrings.IntToString(n)
    case JStr(s) => s
    case JArr(items) => JoinText(items, j)
    case JObj(_) => "[object Object]"
  }

  /** `Array.prototype.join(",")`: `null` elements print as the empty string. */
  function JoinText(items: seq<Json>, ghost parent: Json): string
    requires forall i :: 0 <= i < |items| ==> items[i] < parent
    decreases parent, 0, |items|
  {
    if |items| == 0 then ""
    else
      var head := if items[0] == JNull then "" else JsonText(items[0]);
      if |items| == 1 then head else head + "," + JoinText(items[1..], parent)
  }

  /** `JSON.stringify(v)` as it reaches `localStorage.setItem`: `undefined` turns into the
      text "undefined". */
  function Stringify(v: Option<Json>): string {
    match v
    case None => "undefined"
    case Some(j) => Serialize(j)
  }

  function Serialize(j: Json): string
    decreases j, 1
  {
    match j
    case JNull => "null"
    case JBool(b) => if b then "true" else "false"
    case JNum(n) => JsStrings.IntToString(n)
    case JStr(s) => Quote(s)
    case JArr(items) => "[" + SerializeItems(items, j) + "]"
    case JObj(fields) => "{" + SerializeFields(fields, j) + "}"
  }

  function SerializeItems(items: seq<Json>, ghost parent: Json): string
    requires forall i :: 0 <= i < |items| ==> items[i] < parent
    decreases parent, 0, |items|
  {
    if |items| == 0 then ""
    else if |items| == 1 then Serialize(items[0])
    else Serialize(items[0]) + "," + SerializeItems(items[1..], parent)
  }

  function SerializeFields(fields: seq<(string, Json)>, ghost parent: Json): string
    requires forall i :: 0 <= i < |fields| ==> fields[i].1 < parent
    decreases parent, 0, |fields|
  {
    if |fields| == 0 then ""
    else
      var member := Quote(fields[0].0) + ":" + Serialize(fields[0].1);
      if |fields| == 1 then member else member + "," + SerializeFields(fields[1..], parent)
  }

  /** The JSON string literal for `s`. */
  function Quote(s: string): string {
    "\"" + Escape(s) + "\""
  }

  function Escape(s: string): string {
    if s == [] then "" else EscapeChar(s[0]) + Escape(s[1..])
  }

  function EscapeChar(c: char): string {
    if c == '"' then "\\\""
    else if c == '\\' then "\\\\"
    else if c == '\U{0008}' then "\\b"
    else if c == '\U{000C}' then "\\f"
    else if c == '\n' then "\\n"
    else if c == '\r' then "\\r"
    else if c == '\t' then "\\t"
    else if (c as int) < 0x20 then "\\u00" + [HexDigit(c as int / 16), HexDigit(c as int % 16)]
    else [c]
  }

  function HexDigit(d: nat): char
    requires d < 16
  {
    "0123456789abcdef"[d]
  }
}
