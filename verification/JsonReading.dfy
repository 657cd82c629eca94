/**
  A reader of JSON text (RFC 8259), written without looking at the printer: white space between tokens,
  all escapes, surrogate pairs, nesting, and the numbers and names json.loads takes.  What json.dumps
  prints, the reader reads back: so a text determines its value, and means to any such reader what it
  meant to the writer.
*/
module JsonReading {
  import opened Wrappers
  import opened Json
  import opened JsonPrinting

  // A value and the text behind it.
  datatype Read<+T> = Read(value: T, rest: string) | Malformed

  predicate IsSpace(c: char) { c == ' ' || c == '\n' || c == '\r' || c == '\t' }

  function SkipSpace(s: string): (r: string)
    ensures |r| <= |s|
  {
    if s != [] && IsSpace(s[0]) then SkipSpace(s[1..]) else s
  }

  // ---------- Strings ----------

  predicate IsHex(c: char) { '0' <= c <= '9' || 'a' <= c <= 'f' || 'A' <= c <= 'F' }

  function HexValue(c: char): nat
    requires IsHex(c)
  {
    if c <= '9' then c as int - '0' as int else if c <= 'F' then c as int - 'A' as int + 10 else c as int - 'a' as int + 10
  }

  predicate HasUnit(s: string) { |s| >= 4 && IsHex(s[0]) && IsHex(s[1]) && IsHex(s[2]) && IsHex(s[3]) }

  function UnitOf(s: string): nat
    requires HasUnit(s)
  {
    4096 * HexValue(s[0]) + 256 * HexValue(s[1]) + 16 * HexValue(s[2]) + HexValue(s[3])
  }

  predicate IsHigh(u: nat) { 0xD800 <= u < 0xDC00 }

  predicate IsLow(u: nat) { 0xDC00 <= u < 0xE000 }

  predicate HasLowUnit(s: string) { |s| >= 6 && s[0] == '\\' && s[1] == 'u' && HasUnit(s[2..]) && IsLow(UnitOf(s[2..])) }

  // What follows "\u": a character, or the two halves of one.
  function ReadUnicode(s: string): (r: Read<char>)
    ensures r.Read? ==> |r.rest| < |s|
  {
    if !HasUnit(s) then Malformed
    else
      var u := UnitOf(s);
      if IsHigh(u) then
        if HasLowUnit(s[4..]) then
          Read((0x1_0000 + 1024 * (u - 0xD800) + (UnitOf(s[6..]) - 0xDC00)) as char, s[10..])
        else Malformed
      else if IsLow(u) || u >= 0x1_0000 then Malformed
      else Read(u as char, s[4..])
  }

  function ReadEscape(s: string): (r: Read<char>)
    ensures r.Read? ==> |r.rest| < |s|
  {
    if s == [] then Malformed
    else if s[0] == '"' || s[0] == '\\' || s[0] == '/' then Read(s[0], s[1..])
    else if s[0] == 'n' then Read('\n', s[1..])
    else if s[0] == 'r' then Read('\r', s[1..])
    else if s[0] == 't' then Read('\t', s[1..])
    else if s[0] == 'f' then Read(12 as char, s[1..])
    else if s[0] == 'b' then Read(8 as char, s[1..])
    else if s[0] == 'u' then ReadUnicode(s[1..])
    else Malformed
  }

  function ReadChar(s: string): (r: Read<char>)
    ensures r.Read? ==> |r.rest| < |s|
  {
    if s == [] || s[0] == '"' || s[0] < ' ' then Malformed
    else if s[0] == '\\' then ReadEscape(s[1..])
    else Read(s[0], s[1..])
  }

  // The rest of a string, after its opening quote.
  function ReadChars(s: string): (r: Read<string>)
    ensures r.Read? ==> |r.rest| < |s|
    decreases |s|
  {
    if s != [] && s[0] == '"' then Read("", s[1..])
    else
      match ReadChar(s)
      case Malformed => Malformed
      case Read(c, rest) =>
        match ReadChars(rest)
        case Malformed => Malformed
        case Read(t, end) => Read([c] + t, end)
  }

  // ---------- Numbers and names ----------

  function WordEnd(s: string): (n: nat)
    ensures n <= |s|
  {
    if s != [] && IsWordChar(s[0]) then 1 + WordEnd(s[1..]) else 0
  }

  predicate AllDigits(w: string) { w != [] && forall i :: 0 <= i < |w| ==> IsDigit(w[i]) }

  function MeaningOf(w: string): Option<Json> {
    if w == "null" then Some(Null)
    else if w == "true" then Some(Bool(true))
    else if w == "false" then Some(Bool(false))
    else if AllDigits(w) then Some(Int(DigitsValue(w)))
    else if w != [] && w[0] == '-' && AllDigits(w[1..]) then Some(Int(-DigitsValue(w[1..])))
    else if FloatText(w) then Some(Float(w))
    else None
  }

  // ---------- Values ----------

  function ReadValue(s: string): (r: Read<Json>)
    ensures r.Read? ==> |r.rest| < |s|
    decreases |s|, 1
  {
    var t := SkipSpace(s);
    if t == [] then Malformed
    else if t[0] == '"' then
      match ReadChars(t[1..])
      case Malformed => Malformed
      case Read(text, rest) => Read(Str(text), rest)
    else if t[0] == '[' then
      var u := SkipSpace(t[1..]);
      if u != [] && u[0] == ']' then Read(Arr([]), u[1..])
      else
        match ReadItems(u)
        case Malformed => Malformed
        case Read(items, rest) => Read(Arr(items), rest)
    else if t[0] == '{' then
      var u := SkipSpace(t[1..]);
      if u != [] && u[0] == '}' then Read(Obj([]), u[1..])
      else
        match ReadFields(u)
        case Malformed => Malformed
        case Read(fields, rest) => Read(Obj(fields), rest)
    else
      match MeaningOf(t[..WordEnd(t)])
      case None => Malformed
      case Some(j) => Read(j, t[WordEnd(t)..])
  }

  // The items of an array from the first on, up to the closing bracket.
  function ReadItems(s: string): (r: Read<seq<Json>>)
    ensures r.Read? ==> |r.rest| < |s|
    decreases |s|, 2
  {
    match ReadValue(s)
    case Malformed => Malformed
    case Read(item, rest) =>
      var t := SkipSpace(rest);
      if t != [] && t[0] == ']' then Read([item], t[1..])
      else if t != [] && t[0] == ',' then
        match ReadItems(t[1..])
        case Malformed => Malformed
        case Read(items, end) => Read([item] + items, end)
      else Malformed
  }

  function ReadField(s: string): (r: Read<Field>)
    ensures r.Read? ==> |r.rest| < |s|
    decreases |s|, 2
  {
    var t := SkipSpace(s);
    if t == [] || t[0] != '"' then Malformed
    else
      match ReadChars(t[1..])
      case Malformed => Malformed
      case Read(key, rest) =>
        var u := SkipSpace(rest);
        if u == [] || u[0] != ':' then Malformed
        else
          match ReadValue(u[1..])
          case Malformed => Malformed
          case Read(value, end) => Read(Field(key, value), end)
  }

  function ReadFields(s: string): (r: Read<seq<Field>>)
    ensures r.Read? ==> |r.rest| < |s|
    decreases |s|, 3
  {
    match ReadField(s)
    case Malformed => Malformed
    case Read(field, rest) =>
      var t := SkipSpace(rest);
      if t != [] && t[0] == '}' then Read([field], t[1..])
      else if t != [] && t[0] == ',' then
        match ReadFields(t[1..])
        case Malformed => Malformed
        case Read(fields, end) => Read([field] + fields, end)
      else Malformed
  }

  // json.loads: one value, and nothing but white space behind it.
  function Loads(s: string): Option<Json> {
    match ReadValue(s)
    case Malformed => None
    case Read(j, rest) => if SkipSpace(rest) == [] then Some(j) else None
  }

  // ---------- Reading back strings ----------

  lemma HexBack(d: nat)
    requires d < 16
    ensures IsHex(HexDigit(d)) && HexValue(HexDigit(d)) == d
  {
  }

  lemma Nibbles(n: nat)
    requires n < 0x1_0000
    ensures n / 4096 < 16 && 4096 * (n / 4096) + 256 * (n / 256 % 16) + 16 * (n / 16 % 16) + n % 16 == n
  {
    assert n / 16 / 16 == n / 256 && n / 256 / 16 == n / 4096;
  }

  lemma UnitBack(n: nat, y: string)
    requires n < 0x1_0000
    ensures HasUnit(Hex4(n) + y) && UnitOf(Hex4(n) + y) == n && (Hex4(n) + y)[4..] == y
  {
    Nibbles(n);
    HexBack(n / 4096);
    HexBack(n / 256 % 16);
    HexBack(n / 16 % 16);
    HexBack(n % 16);
  }

  lemma PairValue(n: nat)
    requires 0x1_0000 <= n < 0x11_0000
    ensures 0x1_0000 + 1024 * (HighSurrogate(n) - 0xD800) + (LowSurrogate(n) - 0xDC00) == n
  {
  }

  lemma PairBack(c: char, s: string, y: string)
    requires c as int >= 0x1_0000
    requires HasUnit(s) && UnitOf(s) == HighSurrogate(c as int) && HasLowUnit(s[4..])
    requires UnitOf(s[6..]) == LowSurrogate(c as int) && s[10..] == y
    ensures ReadUnicode(s) == Read(c, y)
  {
    PairValue(c as int);
  }

  // Where the parts of an escaped pair lie.
  lemma PairText(h: string, l: string, y: string)
    requires |h| == 4 && |l| == 4
    ensures var s := h + ("\\u" + l + y);
      && "\\u" + h + ("\\u" + l) + y == "\\u" + s && s[..4] == h
      && s[4] == '\\' && s[5] == 'u' && s[4..][2..] == s[6..] == l + y && s[10..] == y
  {
  }

  lemma AstralBack(c: char, y: string)
    requires c as int >= 0x1_0000
    ensures UnicodeEscape(c) + y == "\\u" + (UnicodeEscape(c) + y)[2..]
    ensures ReadUnicode((UnicodeEscape(c) + y)[2..]) == Read(c, y)
  {
    var h, l := Hex4(HighSurrogate(c as int)), Hex4(LowSurrogate(c as int));
    PairText(h, l, y);
    var s := h + ("\\u" + l + y);
    UnitBack(HighSurrogate(c as int), "\\u" + l + y);
    UnitBack(LowSurrogate(c as int), y);
    PairBack(c, s, y);
    assert ("\\u" + s)[2..] == s;
  }

  lemma UnicodeBack(c: char, y: string)
    ensures UnicodeEscape(c) + y == "\\u" + (UnicodeEscape(c) + y)[2..]
    ensures ReadUnicode((UnicodeEscape(c) + y)[2..]) == Read(c, y)
  {
    if c as int >= 0x1_0000 {
      AstralBack(c, y);
    } else {
      UnitBack(c as int, y);
      assert (UnicodeEscape(c) + y)[2..] == Hex4(c as int) + y;
    }
  }

  lemma EscapedBack(c: char, y: string)
    ensures ReadChar(UnicodeEscape(c) + y) == Read(c, y)
  {
    UnicodeBack(c, y);
    var s := UnicodeEscape(c) + y;
    assert s[1..][0] == s[1] == 'u' && s[1..][1..] == s[2..];
  }

  lemma ShortBack(c: char, e: char, y: string)
    requires Escape(c) == ['\\', e] && e != 'u'
    ensures ReadChar(Escape(c) + y) == Read(c, y)
  {
    var s := Escape(c) + y;
    assert s[1..] == [e] + y && s[1..][1..] == y;
  }

  lemma EscapeKinds(c: char)
    ensures Escape(c) != [] && Escape(c)[0] != '"'
    ensures || Escape(c) == UnicodeEscape(c)
            || (|Escape(c)| == 2 && Escape(c) == ['\\', Escape(c)[1]] && Escape(c)[1] != 'u')
            || (Escape(c) == [c] && ' ' <= c && c != '"' && c != '\\')
  {
  }

  lemma CharBack(c: char, y: string)
    ensures ReadChar(Escape(c) + y) == Read(c, y)
    ensures Escape(c) != [] && Escape(c)[0] != '"'
  {
    EscapeKinds(c);
    if Escape(c) == UnicodeEscape(c) {
      EscapedBack(c, y);
    } else if Escape(c) == [c] {
      assert ([c] + y)[1..] == y;
    } else {
      ShortBack(c, Escape(c)[1], y);
    }
  }

  lemma CharsStep(s: string, c: char, rest: string, t: string, end: string)
    requires ReadChar(s) == Read(c, rest) && s[0] != '"' && ReadChars(rest) == Read(t, end)
    ensures ReadChars(s) == Read([c] + t, end)
  {
  }

  lemma {:induction false} CharsBack(s: string, x: string)
    ensures ReadChars(EscapeAll(s) + "\"" + x) == Read(s, x)
  {
    if s == [] {
      assert EscapeAll(s) + "\"" + x == "\"" + x && ("\"" + x)[1..] == x;
    } else {
      var y := EscapeAll(s[1..]) + "\"" + x;
      assert EscapeAll(s) + "\"" + x == Escape(s[0]) + y;
      CharBack(s[0], y);
      CharsBack(s[1..], x);
      CharsStep(Escape(s[0]) + y, s[0], y, s[1..], x);
      assert s == [s[0]] + s[1..];
    }
  }

  lemma QuoteText(s: string, x: string)
    ensures Quote(s) + x == "\"" + (EscapeAll(s) + "\"" + x)
  {
    Assoc4("\"", EscapeAll(s), "\"", x);
    Assoc(EscapeAll(s), "\"", x);
  }

  // ---------- Reading back words ----------

  lemma {:induction false} WordEnds(w: string, x: string)
    requires forall i :: 0 <= i < |w| ==> IsWordChar(w[i])
    requires x == [] || !IsWordChar(x[0])
    ensures WordEnd(w + x) == |w|
  {
    if w == [] {
      assert w + x == x;
    } else {
      assert (w + x)[1..] == w[1..] + x;
      WordEnds(w[1..], x);
    }
  }

  lemma IntBack(n: int)
    ensures MeaningOf(IntText(n)) == Some(Int(n))
  {
    IntTextChars(n);
    NatTextValue(if n < 0 then -n else n);
    if n < 0 { assert IntText(n)[1..] == NatText(-n); }
  }

  lemma FloatBack(r: string)
    requires FloatText(r)
    ensures MeaningOf(r) == Some(Float(r))
  {
    var i :| 0 <= i < |r| && r[i] in ".eNI";
    assert !IsDigit(r[i]);
    if r[0] == '-' { assert i > 0 && r[1..][i - 1] == r[i]; }
  }

  lemma ScalarBack(j: Json, st: Style)
    requires IsScalar(j) && WellFormed(j)
    ensures MeaningOf(Print(j, st)) == Some(j) && IsWord(Print(j, st))
  {
    ScalarIsWord(j, st);
    if j.Int? { IntBack(j.n); }
    if j.Float? { FloatBack(j.repr); }
  }

  // ---------- Reading back values ----------

  // The text goes on with no white space.
  predicate Sharp(x: string) { x == [] || !IsSpace(x[0]) }

  lemma {:induction false} BlanksSkipped(b: string, x: string)
    requires Blank(b) && Sharp(x)
    ensures SkipSpace(b + x) == x
  {
    if b == [] {
      assert b + x == x;
    } else {
      assert (b + x)[1..] == b[1..] + x;
      BlanksSkipped(b[1..], x);
    }
  }

  lemma WordBack(j: Json, st: Style, b: string, x: string)
    requires IsScalar(j) && WellFormed(j) && Blank(b) && Delimited(x)
    ensures ReadValue(b + (Print(j, st) + x)) == Read(j, x)
  {
    var w := Print(j, st);
    ScalarBack(j, st);
    BlanksSkipped(b, w + x);
    WordEnds(w, x);
    assert (w + x)[..|w|] == w && (w + x)[|w|..] == x && (w + x)[0] == w[0];
  }

  lemma TextBack(t: string, b: string, x: string)
    requires Blank(b)
    ensures ReadValue(b + (Quote(t) + x)) == Read(Str(t), x)
  {
    QuoteText(t, x);
    BlanksSkipped(b, Quote(t) + x);
    CharsBack(t, x);
  }

  lemma Behind(sep: string, y: string)
    requires sep != []
    ensures (sep + y)[0] == sep[0] && (sep + y)[1..] == sep[1..] + y
  {
  }

  lemma LastItem(s: string, item: Json, x: string)
    requires ReadValue(s) == Read(item, "]" + x)
    ensures ReadItems(s) == Read([item], x)
  {
    Behind("]", x);
  }

  lemma NextItem(s: string, item: Json, sep: string, inside: string, items: seq<Json>, x: string)
    requires sep != [] && sep[0] == ',' && ReadValue(s) == Read(item, sep + inside)
    requires ReadItems(sep[1..] + inside) == Read(items, x)
    ensures ReadItems(s) == Read([item] + items, x)
  {
    Behind(sep, inside);
  }

  lemma LastField(s: string, field: Field, x: string)
    requires ReadField(s) == Read(field, "}" + x)
    ensures ReadFields(s) == Read([field], x)
  {
    Behind("}", x);
  }

  lemma NextField(s: string, field: Field, sep: string, inside: string, fields: seq<Field>, x: string)
    requires sep != [] && sep[0] == ',' && ReadField(s) == Read(field, sep + inside)
    requires ReadFields(sep[1..] + inside) == Read(fields, x)
    ensures ReadFields(s) == Read([field] + fields, x)
  {
    Behind(sep, inside);
  }

  lemma KeyAndValue(b: string, key: string, sep: string, value: string, j: Json, x: string)
    requires Blank(b) && sep != [] && sep[0] == ':' && ReadValue(sep[1..] + value) == Read(j, x)
    ensures ReadField(b + (Quote(key) + (sep + value))) == Read(Field(key, j), x)
  {
    QuoteText(key, sep + value);
    BlanksSkipped(b, Quote(key) + (sep + value));
    CharsBack(key, sep + value);
    Behind(sep, value);
    Behind("\"", EscapeAll(key) + "\"" + (sep + value));
  }

  lemma Bracketed(b: string, inside: string, items: seq<Json>, x: string)
    requires Blank(b) && inside != [] && Sharp(inside) && inside[0] != ']' && ReadItems(inside) == Read(items, x)
    ensures ReadValue(b + ("[" + inside)) == Read(Arr(items), x)
  {
    BlanksSkipped(b, "[" + inside);
    Behind("[", inside);
  }

  lemma Braced(b: string, inside: string, fields: seq<Field>, x: string)
    requires Blank(b) && inside != [] && Sharp(inside) && inside[0] != '}' && ReadFields(inside) == Read(fields, x)
    ensures ReadValue(b + ("{" + inside)) == Read(Obj(fields), x)
  {
    BlanksSkipped(b, "{" + inside);
    Behind("{", inside);
  }

  lemma NoneInside(b: string, x: string)
    requires Blank(b)
    ensures ReadValue(b + ("[]" + x)) == Read(Arr([]), x)
    ensures ReadValue(b + ("{}" + x)) == Read(Obj([]), x)
  {
    BlanksSkipped(b, "[]" + x);
    BlanksSkipped(b, "{}" + x);
    assert ("[]" + x)[1..] == "]" + x && ("{}" + x)[1..] == "}" + x;
    Behind("]", x);
    Behind("}", x);
  }

  // What json.dumps prints is read back, whatever follows it.
  lemma {:induction false} PrintedIsRead(j: Json, st: Style, b: string, x: string)
    requires WellFormed(j) && GoodStyle(st) && Blank(b) && Delimited(x)
    ensures ReadValue(b + (Print(j, st) + x)) == Read(j, x)
    decreases j, 3
  {
    if IsScalar(j) {
      WordBack(j, st, b, x);
    } else if j.Str? {
      TextBack(j.s, b, x);
    } else if j.Arr? {
      ArrayBack(j.items, st, b, x);
    } else {
      ObjectBack(j.fields, st, b, x);
    }
  }

  lemma {:induction false} ArrayBack(items: seq<Json>, st: Style, b: string, x: string)
    requires WellFormed(Arr(items)) && GoodStyle(st) && Blank(b) && Delimited(x)
    ensures ReadValue(b + (Print(Arr(items), st) + x)) == Read(Arr(items), x)
    decreases items, 2
  {
    if items == [] {
      NoneInside(b, x);
    } else {
      ArrayText(items, x, st);
      FirstChar(items[0], st);
      ItemsBack(items, st, "", x);
      var inside := Print(items[0], st) + (PrintItems(items[1..], st) + x);
      assert "" + inside == inside;
      Bracketed(b, inside, items, x);
    }
  }

  lemma {:induction false} ItemsBack(items: seq<Json>, st: Style, b: string, x: string)
    requires items != [] && (forall i :: 0 <= i < |items| ==> WellFormed(items[i])) && GoodStyle(st) && Blank(b) && Delimited(x)
    ensures ReadItems(b + (Print(items[0], st) + (PrintItems(items[1..], st) + x))) == Read(items, x)
    decreases items, 1
  {
    var rest := items[1..];
    var s := b + (Print(items[0], st) + (PrintItems(rest, st) + x));
    TailDelimited(rest, [], st, x);
    PrintedIsRead(items[0], st, b, PrintItems(rest, st) + x);
    if rest == [] {
      assert items == [items[0]];
      LastItem(s, items[0], x);
    } else {
      ItemsText(rest, x, st);
      ItemsBack(rest, st, st.item[1..], x);
      NextItem(s, items[0], st.item, Print(rest[0], st) + (PrintItems(rest[1..], st) + x), rest, x);
    }
    assert [items[0]] + rest == items;
  }

  lemma {:induction false} FieldBack(f: Field, st: Style, b: string, x: string)
    requires WellFormed(f.value) && GoodStyle(st) && Blank(b) && Delimited(x)
    ensures ReadField(b + (PrintField(f, st) + x)) == Read(f, x)
    decreases f, 4
  {
    FieldText(f, x, st);
    PrintedIsRead(f.value, st, st.key[1..], x);
    KeyAndValue(b, f.key, st.key, Print(f.value, st) + x, f.value, x);
  }

  lemma {:induction false} ObjectBack(fields: seq<Field>, st: Style, b: string, x: string)
    requires WellFormed(Obj(fields)) && GoodStyle(st) && Blank(b) && Delimited(x)
    ensures ReadValue(b + (Print(Obj(fields), st) + x)) == Read(Obj(fields), x)
    decreases fields, 2
  {
    if fields == [] {
      NoneInside(b, x);
    } else {
      ObjectText(fields, x, st);
      FieldsBack(fields, st, "", x);
      var inside := PrintField(fields[0], st) + (PrintFields(fields[1..], st) + x);
      assert "" + inside == inside && inside[0] == '"';
      Braced(b, inside, fields, x);
    }
  }

  lemma {:induction false} FieldsBack(fields: seq<Field>, st: Style, b: string, x: string)
    requires fields != [] && (forall i :: 0 <= i < |fields| ==> WellFormed(fields[i].value)) && GoodStyle(st) && Blank(b) && Delimited(x)
    ensures ReadFields(b + (PrintField(fields[0], st) + (PrintFields(fields[1..], st) + x))) == Read(fields, x)
    decreases fields, 1
  {
    var rest := fields[1..];
    assert fields == [fields[0]] + rest;
    TailDelimited([], rest, st, x);
    FieldBack(fields[0], st, b, PrintFields(rest, st) + x);
    var s := b + (PrintField(fields[0], st) + (PrintFields(rest, st) + x));
    if rest == [] {
      assert fields == [fields[0]];
      LastField(s, fields[0], x);
    } else {
      var inside := PrintField(rest[0], st) + (PrintFields(rest[1..], st) + x);
      FieldsBack(rest, st, st.item[1..], x);
      assert PrintFields(rest, st) + x == st.item + inside by { FieldsText(rest, x, st); }
      NextField(s, fields[0], st.item, inside, rest, x);
    }
  }

  // ---------- What follows ----------

  // Loading what was dumped gives the value back.
  lemma LoadsWhatIsPrinted(j: Json, st: Style)
    requires WellFormed(j) && GoodStyle(st)
    ensures Loads(Print(j, st)) == Some(j)
  {
    PrintedIsRead(j, st, "", "");
    assert "" + (Print(j, st) + "") == Print(j, st);
  }

  // So two well-formed values with the same text, and anything behind it, are the same value.
  lemma PrintInjective(a: Json, b: Json, x: string, y: string, st: Style)
    requires WellFormed(a) && WellFormed(b) && GoodStyle(st) && Delimited(x) && Delimited(y)
    requires Print(a, st) + x == Print(b, st) + y
    ensures a == b && x == y
  {
    PrintedIsRead(a, st, "", x);
    PrintedIsRead(b, st, "", y);
  }

  // And a quoted string determines its characters.
  lemma QuoteInjective(s: string, t: string, x: string, y: string)
    requires Quote(s) + x == Quote(t) + y
    ensures s == t && x == y
  {
    QuoteText(s, x);
    QuoteText(t, y);
    CharsBack(s, x);
    CharsBack(t, y);
    Cancel("\"", EscapeAll(s) + "\"" + x, EscapeAll(t) + "\"" + y);
  }
}
