/**
  JSON values as the backend builds them, and the text `json.dumps` prints for them
  (backend/src/doda/application/hashing.py, backend/src/doda/api/conversations.py).

  A Python dict remembers the order its keys were inserted in, so an object is a sequence of
  fields here.  What the dict *means* does not depend on that order: `Denote` gives the meaning.
  A `char` is a Unicode scalar value, so lone surrogates are outside the model.
*/
module Json {

  datatype Json =
    | Null
    | Bool(b: bool)
    | Int(n: int)
    | Float(repr: string)  // a float is represented by the text Python's repr gives it
    | Str(s: string)
    | Arr(items: seq<Json>)
    | Obj(fields: seq<Field>)

  datatype Field = Field(key: string, value: Json)

  // ---------- Meaning ----------

  // The logical value: Python compares dicts as finite maps.
  datatype Value =
    | VNull
    | VBool(b: bool)
    | VInt(n: int)
    | VFloat(repr: string)
    | VStr(s: string)
    | VArr(items: seq<Value>)
    | VObj(fields: map<string, Value>)

  function Denote(j: Json): Value
    decreases j, 1
  {
    match j
    case Null => VNull
    case Bool(b) => VBool(b)
    case Int(n) => VInt(n)
    case Float(r) => VFloat(r)
    case Str(s) => VStr(s)
    case Arr(items) => VArr(DenoteItems(items))
    case Obj(fields) => VObj(DenoteFields(fields))
  }

  function DenoteItems(items: seq<Json>): (vs: seq<Value>)
    ensures |vs| == |items|
    ensures forall i :: 0 <= i < |items| ==> vs[i] == Denote(items[i])
    decreases items, 0
  {
    if items == [] then [] else [Denote(items[0])] + DenoteItems(items[1..])
  }

  function DenoteFields(fields: seq<Field>): (m: map<string, Value>)
    ensures forall k :: k in m <==> exists i :: 0 <= i < |fields| && fields[i].key == k
    decreases fields, 0
  {
    if fields == [] then map[]
    else DenoteFields(fields[1..])[fields[0].key := Denote(fields[0].value)]
  }

  // ---------- Well-formedness ----------

  ghost predicate UniqueKeys(fields: seq<Field>) {
    forall i, j :: 0 <= i < j < |fields| ==> fields[i].key != fields[j].key
  }

  // Dict keys are unique, and a float's text is never the text of an integer or a keyword.
  ghost predicate WellFormed(j: Json)
    decreases j, 1
  {
    match j
    case Float(r) => FloatText(r)
    case Arr(items) => forall i :: 0 <= i < |items| ==> WellFormed(items[i])
    case Obj(fields) => UniqueKeys(fields) && forall i :: 0 <= i < |fields| ==> WellFormed(fields[i].value)
    case _ => true
  }

  predicate IsDigit(c: char) { '0' <= c <= '9' }

  // Characters of numbers and of null, true, false, NaN, Infinity.
  predicate IsWordChar(c: char) {
    IsDigit(c) || 'a' <= c <= 'z' || 'A' <= c <= 'Z' || c == '.' || c == '-' || c == '+'
  }

  predicate IsWord(s: string) { s != [] && forall i :: 0 <= i < |s| ==> IsWordChar(s[i]) }

  // float.__repr__, or NaN / Infinity / -Infinity: begins like a number and has a sign of being a float.
  predicate FloatText(r: string) {
    && IsWord(r)
    && (IsDigit(r[0]) || r[0] == '-' || r[0] == 'N' || r[0] == 'I')
    && exists i :: 0 <= i < |r| && r[i] in ".eNI"
  }

  // ---------- Printing ----------

  // The `separators` argument of json.dumps.
  datatype Style = Style(item: string, key: string)

  const COMPACT := Style(",", ":")
  const SPACED := Style(", ", ": ")

  predicate Blank(s: string) { forall i :: 0 <= i < |s| ==> s[i] == ' ' }

  // A comma and a colon, each with any number of blanks behind it.
  predicate GoodStyle(st: Style) {
    && st.item != [] && st.item[0] == ',' && Blank(st.item[1..])
    && st.key != [] && st.key[0] == ':' && Blank(st.key[1..])
  }

  function Digit(d: nat): char
    requires d < 10
  {
    "0123456789"[d]
  }

  function NatText(n: nat): (t: string)
    ensures t != [] && forall i :: 0 <= i < |t| ==> IsDigit(t[i])
  {
    if n < 10 then [Digit(n)] else NatText(n / 10) + [Digit(n % 10)]
  }

  function IntText(n: int): string {
    if n < 0 then "-" + NatText(-n) else NatText(n)
  }

  function HexDigit(d: nat): char
    requires d < 16
  {
    "0123456789abcdef"[d]
  }

  function Hex4(n: nat): string
    requires n < 0x1_0000
  {
    [HexDigit(n / 4096), HexDigit(n / 256 % 16), HexDigit(n / 16 % 16), HexDigit(n % 16)]
  }

  function Unit(n: nat): string
    requires n < 0x1_0000
  {
    "\\u" + Hex4(n)
  }

  function HighSurrogate(n: nat): (u: nat)
    requires 0x1_0000 <= n < 0x11_0000
    ensures 0xD800 <= u < 0xDC00
  {
    0xD800 + (n - 0x1_0000) / 1024
  }

  function LowSurrogate(n: nat): (u: nat)
    requires 0x1_0000 <= n < 0x11_0000
    ensures 0xDC00 <= u < 0xE000
  {
    0xDC00 + (n - 0x1_0000) % 1024
  }

  // \uXXXX, or a surrogate pair above 0xFFFF.
  function UnicodeEscape(c: char): string {
    var n := c as int;
    if n < 0x1_0000 then Unit(n) else Unit(HighSurrogate(n)) + Unit(LowSurrogate(n))
  }

  // ensure_ascii=True: nothing outside ' '..'~' is printed as it is.
  function Escape(c: char): string {
    if c == '"' then "\\\""
    else if c == '\\' then "\\\\"
    else if c == '\n' then "\\n"
    else if c == '\r' then "\\r"
    else if c == '\t' then "\\t"
    else if c as int == 12 then "\\f"
    else if c as int == 8 then "\\b"
    else if ' ' <= c <= '~' then [c]
    else UnicodeEscape(c)
  }

  function EscapeAll(s: string): string {
    if s == [] then [] else Escape(s[0]) + EscapeAll(s[1..])
  }

  function Quote(s: string): string { "\"" + EscapeAll(s) + "\"" }

  function Print(j: Json, st: Style): string
    decreases j, 1
  {
    match j
    case Null => "null"
    case Bool(b) => if b then "true" else "false"
    case Int(n) => IntText(n)
    case Float(r) => r
    case Str(s) => Quote(s)
    case Arr(items) => if items == [] then "[]" else "[" + Print(items[0], st) + PrintItems(items[1..], st)
    case Obj(fields) => if fields == [] then "{}" else "{" + PrintField(fields[0], st) + PrintFields(fields[1..], st)
  }

  function PrintField(f: Field, st: Style): string
    decreases f, 2
  {
    Quote(f.key) + st.key + Print(f.value, st)
  }

  // What follows the first item of an array, closing bracket included.
  function PrintItems(items: seq<Json>, st: Style): string
    decreases items, 0
  {
    if items == [] then "]" else st.item + Print(items[0], st) + PrintItems(items[1..], st)
  }

  function PrintFields(fields: seq<Field>, st: Style): string
    decreases fields, 0
  {
    if fields == [] then "}" else st.item + PrintField(fields[0], st) + PrintFields(fields[1..], st)
  }

  // ---------- sort_keys=True ----------

  // Python orders strings by code point, shorter prefix first.
  predicate StringLess(a: string, b: string) {
    if b == [] then false
    else if a == [] then true
    else a[0] < b[0] || (a[0] == b[0] && StringLess(a[1..], b[1..]))
  }

  function Insert(f: Field, sorted: seq<Field>): seq<Field> {
    if sorted == [] then [f]
    else if StringLess(sorted[0].key, f.key) then [sorted[0]] + Insert(f, sorted[1..])
    else [f] + sorted
  }

  function SortByKey(fields: seq<Field>): seq<Field> {
    if fields == [] then [] else Insert(fields[0], SortByKey(fields[1..]))
  }

  function Normalize(j: Json): Json
    decreases j, 1
  {
    match j
    case Arr(items) => Arr(NormalizeItems(items))
    case Obj(fields) => Obj(SortByKey(NormalizeFields(fields)))
    case _ => j
  }

  function NormalizeItems(items: seq<Json>): (r: seq<Json>)
    ensures |r| == |items|
    ensures forall i :: 0 <= i < |items| ==> r[i] == Normalize(items[i])
    decreases items, 0
  {
    if items == [] then [] else [Normalize(items[0])] + NormalizeItems(items[1..])
  }

  function NormalizeFields(fields: seq<Field>): (r: seq<Field>)
    ensures |r| == |fields|
    ensures forall i :: 0 <= i < |fields| ==> r[i] == Field(fields[i].key, Normalize(fields[i].value))
    decreases fields, 0
  {
    if fields == [] then []
    else [Field(fields[0].key, Normalize(fields[0].value))] + NormalizeFields(fields[1..])
  }

  // hashing.canonical_json
  function Canonical(j: Json): string { Print(Normalize(j), COMPACT) }

  // json.dumps with its defaults, as the SSE frames use it
  function Dumps(j: Json): string { Print(j, SPACED) }
}
