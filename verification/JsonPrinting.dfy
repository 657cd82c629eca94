/**
  The shape of printed JSON: which characters a word is made of, how a value begins, and what follows it,
  which starts with ',', ']' or '}'.
*/
module JsonPrinting {
  import opened Json

  predicate Delimited(x: string) { x == [] || x[0] in ",]}" }

  lemma Cancel<T>(p: seq<T>, x: seq<T>, y: seq<T>)
    requires p + x == p + y
    ensures x == y
  {
    assert x == (p + x)[|p|..];
    assert y == (p + y)[|p|..];
  }

  lemma Assoc<T>(a: seq<T>, b: seq<T>, c: seq<T>)
    ensures a + b + c == a + (b + c)
  {
  }

  lemma Assoc4<T>(a: seq<T>, b: seq<T>, c: seq<T>, d: seq<T>)
    ensures a + b + c + d == a + (b + (c + d))
  {
  }

  // ---------- Numbers and keywords ----------

  function DigitsValue(t: string): int {
    if t == [] then 0 else 10 * DigitsValue(t[..|t| - 1]) + (t[|t| - 1] as int - '0' as int)
  }

  lemma {:induction false} NatTextValue(n: nat)
    ensures DigitsValue(NatText(n)) == n
  {
    var t := NatText(n);
    if n >= 10 {
      NatTextValue(n / 10);
      assert t[..|t| - 1] == NatText(n / 10);
    } else {
      assert t[..|t| - 1] == [];
    }
  }

  lemma IntTextChars(n: int)
    ensures IsWord(IntText(n))
    ensures if n < 0 then IntText(n)[0] == '-' else IsDigit(IntText(n)[0])
    ensures forall i :: 0 <= i < |IntText(n)| ==> IntText(n)[i] !in ".eNI"
  {
  }

  predicate IsScalar(j: Json) { j.Null? || j.Bool? || j.Int? || j.Float? }

  lemma ScalarIsWord(j: Json, st: Style)
    requires IsScalar(j) && WellFormed(j)
    ensures IsWord(Print(j, st))
  {
    if j.Int? { IntTextChars(j.n); }
  }

  // ---------- Whole values ----------

  lemma FirstChar(j: Json, st: Style)
    requires WellFormed(j)
    ensures Print(j, st) != []
    ensures j.Str? ==> Print(j, st)[0] == '"'
    ensures j.Arr? ==> Print(j, st)[0] == '['
    ensures j.Obj? ==> Print(j, st)[0] == '{'
    ensures IsScalar(j) ==> IsWordChar(Print(j, st)[0])
  {
    if IsScalar(j) { ScalarIsWord(j, st); }
  }

  lemma TailDelimited(items: seq<Json>, fields: seq<Field>, st: Style, x: string)
    requires GoodStyle(st)
    ensures Delimited(PrintItems(items, st) + x) && Delimited(PrintFields(fields, st) + x)
    ensures (PrintItems(items, st) + x)[0] == (if items == [] then ']' else ',')
    ensures (PrintFields(fields, st) + x)[0] == (if fields == [] then '}' else ',')
  {
  }

  lemma ArrayText(s: seq<Json>, x: string, st: Style)
    requires s != []
    ensures Print(Arr(s), st) + x == "[" + (Print(s[0], st) + (PrintItems(s[1..], st) + x))
  {
    Assoc4("[", Print(s[0], st), PrintItems(s[1..], st), x);
  }

  lemma ItemsText(s: seq<Json>, x: string, st: Style)
    requires s != []
    ensures PrintItems(s, st) + x == st.item + (Print(s[0], st) + (PrintItems(s[1..], st) + x))
  {
    Assoc4(st.item, Print(s[0], st), PrintItems(s[1..], st), x);
  }

  lemma FieldText(f: Field, x: string, st: Style)
    ensures PrintField(f, st) + x == Quote(f.key) + (st.key + (Print(f.value, st) + x))
  {
    Assoc4(Quote(f.key), st.key, Print(f.value, st), x);
  }

  lemma ObjectText(s: seq<Field>, x: string, st: Style)
    requires s != []
    ensures Print(Obj(s), st) + x == "{" + (PrintField(s[0], st) + (PrintFields(s[1..], st) + x))
    ensures Print(Obj(s), st)[1] == '"'
  {
    Assoc4("{", PrintField(s[0], st), PrintFields(s[1..], st), x);
    assert PrintField(s[0], st)[0] == '"';
  }

  lemma FieldsText(s: seq<Field>, x: string, st: Style)
    requires s != []
    ensures PrintFields(s, st) + x == st.item + (PrintField(s[0], st) + (PrintFields(s[1..], st) + x))
  {
    Assoc4(st.item, PrintField(s[0], st), PrintFields(s[1..], st), x);
  }
}
