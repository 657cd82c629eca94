/**
  canonical_json depends only on the logical value of what it is given, and determines it:
  two well-formed values have the same canonical text exactly when they denote the same value.
*/
module JsonCanonical {
  import opened Json
  import opened JsonPrinting
  import opened JsonReading

  // ---------- The order on keys ----------

  lemma {:induction false} LessIrreflexive(a: string)
    ensures !StringLess(a, a)
  {
    if a != [] { LessIrreflexive(a[1..]); }
  }

  lemma {:induction false} LessTotal(a: string, b: string)
    ensures StringLess(a, b) || a == b || StringLess(b, a)
  {
    if a != [] && b != [] && a[0] == b[0] {
      LessTotal(a[1..], b[1..]);
      if a[1..] == b[1..] { assert a == [a[0]] + a[1..] && b == [b[0]] + b[1..]; }
    }
  }

  lemma {:induction false} LessTransitive(a: string, b: string, c: string)
    requires StringLess(a, b) && StringLess(b, c)
    ensures StringLess(a, c)
  {
    if a != [] && a[0] == b[0] && b[0] == c[0] {
      LessTransitive(a[1..], b[1..], c[1..]);
    }
  }

  // It is the order by code points: at the first difference, or a prefix first.
  predicate FirstDifference(a: string, b: string, i: nat) {
    i <= |a| && i < |b| && a[..i] == b[..i] && (i == |a| || a[i] < b[i])
  }

  lemma DifferenceTail(a: string, b: string, i: nat)
    requires a != [] && b != [] && a[0] == b[0]
    ensures FirstDifference(a[1..], b[1..], i) <==> FirstDifference(a, b, i + 1)
  {
    if i < |a| && i < |b| {
      assert a[..i + 1] == [a[0]] + a[1..][..i] && b[..i + 1] == [b[0]] + b[1..][..i];
      assert a[1..][..i] == a[..i + 1][1..] && b[1..][..i] == b[..i + 1][1..];
    }
  }

  lemma DifferenceAtFront(a: string, b: string, i: nat)
    requires FirstDifference(a, b, i)
    ensures a == [] || a[0] <= b[0]
    ensures a != [] && a[0] == b[0] ==> i > 0
  {
    if i > 0 { assert a[..i][0] == a[0] && b[..i][0] == b[0]; }
  }

  lemma {:induction false} LessIff(a: string, b: string)
    ensures StringLess(a, b) <==> exists i: nat :: FirstDifference(a, b, i)
  {
    forall i: nat | FirstDifference(a, b, i)
      ensures a == [] || a[0] <= b[0]
      ensures a != [] && a[0] == b[0] ==> i > 0
    {
      DifferenceAtFront(a, b, i);
    }
    if a != [] && b != [] && a[0] == b[0] {
      LessIff(a[1..], b[1..]);
      forall i: nat ensures FirstDifference(a[1..], b[1..], i) <==> FirstDifference(a, b, i + 1) { DifferenceTail(a, b, i); }
      assert forall i: nat :: FirstDifference(a, b, i) ==> FirstDifference(a[1..], b[1..], i - 1);
    } else if b != [] && (a == [] || a[0] < b[0]) {
      assert FirstDifference(a, b, 0);
    }
  }

  // ---------- Sorting ----------

  ghost predicate SortedKeys(fields: seq<Field>) {
    forall i, j :: 0 <= i < j < |fields| ==> StringLess(fields[i].key, fields[j].key)
  }

  lemma {:induction false} InsertContents(f: Field, s: seq<Field>)
    ensures |Insert(f, s)| == |s| + 1
    ensures forall g :: g in Insert(f, s) <==> g == f || g in s
  {
    if s != [] && StringLess(s[0].key, f.key) {
      InsertContents(f, s[1..]);
      assert s == [s[0]] + s[1..];
    }
  }

  // s with f in front, as the sort leaves it when f has the least key.
  lemma ConsSorted(f: Field, s: seq<Field>)
    requires SortedKeys(s) && forall g :: g in s ==> StringLess(f.key, g.key)
    ensures SortedKeys([f] + s)
  {
    assert forall i :: 0 <= i < |s| ==> s[i] in s;
  }

  lemma {:induction false} InsertSorts(f: Field, s: seq<Field>)
    requires SortedKeys(s)
    requires forall g :: g in s ==> g.key != f.key
    ensures SortedKeys(Insert(f, s))
  {
    if s != [] {
      LessTotal(s[0].key, f.key);
      assert forall g :: g in s[1..] ==> StringLess(s[0].key, g.key);
      if StringLess(s[0].key, f.key) {
        InsertSorts(f, s[1..]);
        InsertContents(f, s[1..]);
        ConsSorted(s[0], Insert(f, s[1..]));
      } else {
        forall g | g in s
          ensures StringLess(f.key, g.key)
        {
          if g != s[0] { LessTransitive(f.key, s[0].key, g.key); }
        }
        ConsSorted(f, s);
      }
    }
  }

  lemma DenoteCons(f: Field, s: seq<Field>)
    ensures DenoteFields([f] + s) == DenoteFields(s)[f.key := Denote(f.value)]
  {
    assert ([f] + s)[1..] == s;
  }

  lemma {:induction false} InsertDenotes(f: Field, s: seq<Field>)
    requires forall g :: g in s ==> g.key != f.key
    ensures DenoteFields(Insert(f, s)) == DenoteFields(s)[f.key := Denote(f.value)]
  {
    if s != [] && StringLess(s[0].key, f.key) {
      InsertDenotes(f, s[1..]);
      DenoteCons(s[0], Insert(f, s[1..]));
    } else {
      DenoteCons(f, s);
    }
  }

  lemma {:induction false} SortSorts(s: seq<Field>)
    requires UniqueKeys(s)
    ensures SortedKeys(SortByKey(s)) && |SortByKey(s)| == |s|
    ensures forall g :: g in SortByKey(s) <==> g in s
    ensures DenoteFields(SortByKey(s)) == DenoteFields(s)
  {
    if s != [] {
      SortSorts(s[1..]);
      assert s == [s[0]] + s[1..];
      InsertContents(s[0], SortByKey(s[1..]));
      InsertSorts(s[0], SortByKey(s[1..]));
      InsertDenotes(s[0], SortByKey(s[1..]));
    }
  }

  lemma SortedAreUnique(s: seq<Field>)
    requires SortedKeys(s)
    ensures UniqueKeys(s)
  {
    forall i, j | 0 <= i < j < |s| ensures s[i].key != s[j].key { LessIrreflexive(s[i].key); }
  }

  // ---------- Normal forms ----------

  // Keys sorted at every depth.
  ghost predicate Normal(j: Json) {
    match j
    case Arr(items) => forall i :: 0 <= i < |items| ==> Normal(items[i])
    case Obj(fields) => SortedKeys(fields) && forall i :: 0 <= i < |fields| ==> Normal(fields[i].value)
    case _ => true
  }

  lemma {:induction false} NormalizeProperties(j: Json)
    requires WellFormed(j)
    ensures WellFormed(Normalize(j)) && Normal(Normalize(j))
    ensures Denote(Normalize(j)) == Denote(j)
    decreases j
  {
    match j
    case Arr(items) =>
      forall i | 0 <= i < |items|
        ensures WellFormed(Normalize(items[i])) && Normal(Normalize(items[i]))
        ensures Denote(Normalize(items[i])) == Denote(items[i])
      {
        NormalizeProperties(items[i]);
      }
      assert DenoteItems(NormalizeItems(items)) == DenoteItems(items);
    case Obj(fields) =>
      var fs := NormalizeFields(fields);
      forall i | 0 <= i < |fields|
        ensures WellFormed(fs[i].value) && Normal(fs[i].value) && Denote(fs[i].value) == Denote(fields[i].value)
      {
        NormalizeProperties(fields[i].value);
      }
      SameFields(fs, fields);
      SortSorts(fs);
      SortedAreUnique(SortByKey(fs));
      forall i | 0 <= i < |SortByKey(fs)|
        ensures WellFormed(SortByKey(fs)[i].value) && Normal(SortByKey(fs)[i].value)
      {
        assert SortByKey(fs)[i] in fs;
      }
    case _ =>
  }

  lemma {:induction false} SameFields(s: seq<Field>, t: seq<Field>)
    requires |s| == |t|
    requires forall i :: 0 <= i < |s| ==> s[i].key == t[i].key && Denote(s[i].value) == Denote(t[i].value)
    ensures DenoteFields(s) == DenoteFields(t)
  {
    if s != [] { SameFields(s[1..], t[1..]); }
  }

  ghost predicate SameValues(s: seq<Field>, t: seq<Field>) {
    |s| == |t| && forall i :: 0 <= i < |s| ==> Denote(s[i].value) == Denote(t[i].value)
  }

  lemma {:induction false} FieldLookup(fields: seq<Field>, i: nat)
    requires UniqueKeys(fields) && i < |fields|
    ensures DenoteFields(fields)[fields[i].key] == Denote(fields[i].value)
  {
    if i > 0 {
      FieldLookup(fields[1..], i - 1);
      assert fields[1..][i - 1] == fields[i];
    }
  }

  // Two objects written with the same keys in the same places differ exactly where a value differs.
  lemma FieldwiseDenotation(s: seq<Field>, t: seq<Field>)
    requires UniqueKeys(s) && |s| == |t| && forall i :: 0 <= i < |s| ==> s[i].key == t[i].key
    ensures DenoteFields(s) == DenoteFields(t) <==> SameValues(s, t)
  {
    if DenoteFields(s) == DenoteFields(t) {
      forall i | 0 <= i < |s|
        ensures Denote(s[i].value) == Denote(t[i].value)
      {
        FieldLookup(s, i);
        FieldLookup(t, i);
      }
    }
    if SameValues(s, t) { SameFields(s, t); }
  }

  // A sorted object's first key is the least key of the map it denotes.
  lemma SameFirstKey(s: seq<Field>, t: seq<Field>)
    requires s != [] && t != [] && SortedKeys(s) && SortedKeys(t)
    requires DenoteFields(s) == DenoteFields(t)
    ensures s[0].key == t[0].key
  {
    assert s[0].key in DenoteFields(t) && t[0].key in DenoteFields(s);
    var i :| 0 <= i < |t| && t[i].key == s[0].key;
    var j :| 0 <= j < |s| && s[j].key == t[0].key;
    if i > 0 && j > 0 {
      LessTransitive(t[0].key, t[i].key, t[0].key);
      LessIrreflexive(t[0].key);
    }
  }

  lemma TailMap(s: seq<Field>)
    requires s != [] && UniqueKeys(s)
    ensures DenoteFields(s[1..]) == DenoteFields(s) - {s[0].key}
    ensures DenoteFields(s)[s[0].key] == Denote(s[0].value)
  {
    forall i | 0 <= i < |s[1..]|
      ensures s[1..][i].key != s[0].key
    {
      assert s[1..][i] == s[i + 1];
    }
    AddThenRemove(DenoteFields(s[1..]), s[0].key, Denote(s[0].value));
  }

  lemma AddThenRemove<K, V>(m: map<K, V>, k: K, v: V)
    requires k !in m
    ensures m[k := v] - {k} == m
  {
  }

  lemma {:induction false} NormalUnique(a: Json, b: Json)
    requires Normal(a) && Normal(b) && Denote(a) == Denote(b)
    ensures a == b
    decreases a, 1
  {
    match a
    case Arr(items) =>
      forall i | 0 <= i < |items|
        ensures items[i] == b.items[i]
      {
        assert DenoteItems(items)[i] == DenoteItems(b.items)[i];
        NormalUnique(items[i], b.items[i]);
      }
    case Obj(fields) => NormalFieldsUnique(fields, b.fields);
    case _ =>
  }

  lemma {:induction false} NormalFieldsUnique(s: seq<Field>, t: seq<Field>)
    requires SortedKeys(s) && SortedKeys(t)
    requires forall i :: 0 <= i < |s| ==> Normal(s[i].value)
    requires forall i :: 0 <= i < |t| ==> Normal(t[i].value)
    requires DenoteFields(s) == DenoteFields(t)
    ensures s == t
    decreases s, 0
  {
    assert s != [] ==> s[0].key in DenoteFields(s);
    assert t != [] ==> t[0].key in DenoteFields(t);
    if s != [] {
      SameFirstKey(s, t);
      SortedAreUnique(s);
      SortedAreUnique(t);
      TailMap(s);
      TailMap(t);
      NormalUnique(s[0].value, t[0].value);
      NormalFieldsUnique(s[1..], t[1..]);
      assert s == [s[0]] + s[1..] && t == [t[0]] + t[1..];
    }
  }

  // ---------- The theorem ----------

  // Any two ways of writing a value down, keys in any order at any depth, give one text;
  // and one text stands for one value only.
  lemma CanonicalDeterminesValue(a: Json, b: Json)
    requires WellFormed(a) && WellFormed(b)
    ensures Canonical(a) == Canonical(b) <==> Denote(a) == Denote(b)
  {
    NormalizeProperties(a);
    NormalizeProperties(b);
    if Canonical(a) == Canonical(b) {
      PrintInjective(Normalize(a), Normalize(b), [], [], COMPACT) by {
        assert Canonical(a) + [] == Canonical(a) && Canonical(b) + [] == Canonical(b);
      }
    }
    if Denote(a) == Denote(b) {
      NormalUnique(Normalize(a), Normalize(b));
    }
  }

  // And the text says what it stands for: a JSON reader gets the logical value back from it.
  lemma CanonicalReadsBack(a: Json)
    requires WellFormed(a)
    ensures Loads(Canonical(a)).Some? && Denote(Loads(Canonical(a)).value) == Denote(a)
  {
    NormalizeProperties(a);
    LoadsWhatIsPrinted(Normalize(a), COMPACT);
  }

  // ---------- Hashing ----------

  // sha256 is modelled by any function from texts to digests without collisions.
  type Hasher = string -> string

  ghost predicate CollisionFree(h: Hasher) {
    forall x, y :: h(x) == h(y) ==> x == y
  }

  function HashPayload(h: Hasher, j: Json): string { h(Canonical(j)) }

  // An approval bound to a payload hash is bound to the payload.
  lemma HashBindsPayload(h: Hasher, a: Json, b: Json)
    requires CollisionFree(h) && WellFormed(a) && WellFormed(b)
    ensures HashPayload(h, a) == HashPayload(h, b) <==> Denote(a) == Denote(b)
  {
    CanonicalDeterminesValue(a, b);
  }

  lemma ObjectHashes(h: Hasher, s: seq<Field>, t: seq<Field>)
    requires CollisionFree(h) && WellFormed(Obj(s)) && WellFormed(Obj(t))
    requires |s| == |t| && forall i :: 0 <= i < |s| ==> s[i].key == t[i].key
    ensures HashPayload(h, Obj(s)) == HashPayload(h, Obj(t)) <==> SameValues(s, t)
  {
    HashBindsPayload(h, Obj(s), Obj(t));
    FieldwiseDenotation(s, t);
  }

  // ---------- Plain ASCII ----------

  predicate Printable(t: string) { forall i :: 0 <= i < |t| ==> ' ' <= t[i] <= '~' }

  lemma {:induction false} QuotePrintable(s: string)
    ensures Printable(EscapeAll(s)) && Printable(Quote(s))
  {
    if s != [] {
      QuotePrintable(s[1..]);
      EscapePrintable(s[0]);
    }
  }

  lemma UnitPrintable(n: nat)
    requires n < 0x1_0000
    ensures Printable(Unit(n))
  {
  }

  lemma PrintableConcat(a: string, b: string)
    requires Printable(a) && Printable(b)
    ensures Printable(a + b)
  {
  }

  lemma UnicodeEscapePrintable(c: char)
    ensures Printable(UnicodeEscape(c))
  {
    var n := c as int;
    if n < 0x1_0000 {
      UnitPrintable(n);
    } else {
      UnitPrintable(HighSurrogate(n));
      UnitPrintable(LowSurrogate(n));
      PrintableConcat(Unit(HighSurrogate(n)), Unit(LowSurrogate(n)));
    }
  }

  lemma EscapePrintable(c: char)
    ensures Printable(Escape(c))
  {
    UnicodeEscapePrintable(c);
  }

  lemma {:induction false} PrintPrintable(j: Json, st: Style)
    requires WellFormed(j) && Printable(st.item) && Printable(st.key)
    ensures Printable(Print(j, st))
    decreases j, 3
  {
    match j
    case Int(n) => IntTextChars(n);
    case Str(s) => QuotePrintable(s);
    case Arr(items) =>
      if items != [] {
        PrintPrintable(items[0], st);
        ItemsPrintable(items[1..], st);
      }
    case Obj(fields) =>
      if fields != [] {
        FieldPrintable(fields[0], st);
        FieldsPrintable(fields[1..], st);
      }
    case _ =>
  }

  lemma {:induction false} ItemsPrintable(items: seq<Json>, st: Style)
    requires forall i :: 0 <= i < |items| ==> WellFormed(items[i])
    requires Printable(st.item) && Printable(st.key)
    ensures Printable(PrintItems(items, st))
    decreases items, 1
  {
    if items != [] {
      PrintPrintable(items[0], st);
      ItemsPrintable(items[1..], st);
    }
  }

  lemma {:induction false} FieldPrintable(f: Field, st: Style)
    requires WellFormed(f.value) && Printable(st.item) && Printable(st.key)
    ensures Printable(PrintField(f, st))
    decreases f, 4
  {
    QuotePrintable(f.key);
    PrintPrintable(f.value, st);
  }

  lemma {:induction false} FieldsPrintable(fields: seq<Field>, st: Style)
    requires forall i :: 0 <= i < |fields| ==> WellFormed(fields[i].value)
    requires Printable(st.item) && Printable(st.key)
    ensures Printable(PrintFields(fields, st))
    decreases fields, 1
  {
    if fields != [] {
      FieldPrintable(fields[0], st);
      FieldsPrintable(fields[1..], st);
    }
  }
}
