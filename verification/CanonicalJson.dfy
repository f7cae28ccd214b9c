/**
 Canonical JSON text: object keys in UTF-16 order, no white space. Stores and services compare
 values by comparing these texts; the main results are that the text determines the value, with
 objects read as maps, and the value the text.

 A string is a sequence of Unicode scalar values, so lone surrogates are not modelled, and a
 number is an integer.
 */
module CanonicalJson {
  datatype Field = Field(key: string, value: Json)

  /** A JSON value; an object keeps its keys in insertion order. */
  datatype Json =
    | Null
    | Bool(flag: bool)
    | Number(number: int)
    | Text(text: string)
    | Arr(items: seq<Json>)
    | Obj(fields: seq<Field>)

  /** What a JSON value means: an object is a map. */
  datatype Value =
    | NullValue
    | BoolValue(flag: bool)
    | NumberValue(number: int)
    | TextValue(text: string)
    | ArrValue(items: seq<Value>)
    | ObjValue(fields: map<string, Value>)

  /** Keys of an object are distinct, as in every JavaScript object. */
  predicate WellFormed(j: Json) {
    match j
    case Arr(items) => forall i | 0 <= i < |items| :: WellFormed(items[i])
    case Obj(fields) =>
      && (forall i | 0 <= i < |fields| :: WellFormed(fields[i].value))
      && (forall i, k | 0 <= i < k < |fields| :: fields[i].key != fields[k].key)
    case _ => true
  }

  function Meaning(j: Json): Value {
    match j
    case Null => NullValue
    case Bool(b) => BoolValue(b)
    case Number(n) => NumberValue(n)
    case Text(t) => TextValue(t)
    case Arr(items) => ArrValue(seq(|items|, i requires 0 <= i < |items| => Meaning(items[i])))
    case Obj(fields) => ObjValue(map k | k in Keys(fields) :: Meaning(fields[IndexOf(fields, k)].value))
  }

  function Keys(fields: seq<Field>): (keys: seq<string>)
    ensures |keys| == |fields| && forall i | 0 <= i < |fields| :: keys[i] == fields[i].key
  {
    seq(|fields|, i requires 0 <= i < |fields| => fields[i].key)
  }

  /** `object[key]`: the position of a key that the object has. */
  function IndexOf(fields: seq<Field>, key: string): (i: nat)
    requires key in Keys(fields)
    ensures i < |fields| && fields[i].key == key
  {
    var n := |fields| - 1;
    if fields[n].key == key then n
    else
      assert Keys(fields) == Keys(fields[..n]) + [fields[n].key];
      assert fields[..n][IndexOf(fields[..n], key)] == fields[IndexOf(fields[..n], key)];
      IndexOf(fields[..n], key)
  }

  // ---------------------------------------------------------------- key order

  /** UTF-16 code units. */
  function UnitsOf(c: char): seq<nat> {
    var n := c as nat;
    if n < 0x10000 then [n] else [0xD800 + (n - 0x10000) / 0x400, 0xDC00 + (n - 0x10000) % 0x400]
  }

  function Units(s: string): seq<nat> {
    if s == "" then [] else UnitsOf(s[0]) + Units(s[1..])
  }

  predicate LexLess(a: seq<nat>, b: seq<nat>) {
    b != [] && (a == [] || a[0] < b[0] || (a[0] == b[0] && LexLess(a[1..], b[1..])))
  }

  /** JavaScript's `<` on strings, which `Array.prototype.sort` uses. */
  predicate Less(a: string, b: string) {
    LexLess(Units(a), Units(b))
  }

  lemma {:induction false} LexTotal(a: seq<nat>, b: seq<nat>)
    ensures LexLess(a, b) || LexLess(b, a) || a == b
    ensures !(LexLess(a, b) && LexLess(b, a)) && !LexLess(a, a)
  {
    if a != [] { LexIrreflexive(a); }
    if a != [] && b != [] {
      LexTotal(a[1..], b[1..]);
      if a[0] == b[0] && a[1..] == b[1..] { assert a == [a[0]] + a[1..] == b; }
    }
  }

  lemma {:induction false} LexIrreflexive(a: seq<nat>)
    ensures !LexLess(a, a)
  {
    if a != [] { LexIrreflexive(a[1..]); }
  }

  lemma {:induction false} LexTransitive(a: seq<nat>, b: seq<nat>, c: seq<nat>)
    requires LexLess(a, b) && LexLess(b, c)
    ensures LexLess(a, c)
  {
    if a != [] && a[0] == b[0] == c[0] { LexTransitive(a[1..], b[1..], c[1..]); }
  }

  lemma UnitsOfPrefix(c: char, d: char, u: seq<nat>, v: seq<nat>)
    requires UnitsOf(c) + u == UnitsOf(d) + v
    ensures c == d && u == v
  {
    assert (UnitsOf(c) + u)[0] == UnitsOf(c)[0] && (UnitsOf(d) + v)[0] == UnitsOf(d)[0];
    assert |UnitsOf(c)| == |UnitsOf(d)|;
    assert u == (UnitsOf(c) + u)[|UnitsOf(c)|..] == v;
    assert UnitsOf(c) == (UnitsOf(c) + u)[..|UnitsOf(c)|] == UnitsOf(d);
  }

  lemma {:induction false} UnitsInjective(a: string, b: string)
    requires Units(a) == Units(b)
    ensures a == b
  {
    if a != "" && b != "" {
      UnitsOfPrefix(a[0], b[0], Units(a[1..]), Units(b[1..]));
      UnitsInjective(a[1..], b[1..]);
      assert a == [a[0]] + a[1..] == b;
    }
  }

  lemma LessTotal(a: string, b: string)
    ensures Less(a, b) || Less(b, a) || a == b
    ensures !(Less(a, b) && Less(b, a)) && !Less(a, a)
  {
    LexTotal(Units(a), Units(b));
    LexIrreflexive(Units(a));
    if Units(a) == Units(b) { UnitsInjective(a, b); }
  }

  predicate Increasing(keys: seq<string>) {
    forall i, k | 0 <= i < k < |keys| :: Less(keys[i], keys[k])
  }

  predicate Distinct(keys: seq<string>) {
    forall i, k | 0 <= i < k < |keys| :: keys[i] != keys[k]
  }

  function Insert(key: string, keys: seq<string>): seq<string> {
    if keys == [] || Less(key, keys[0]) then [key] + keys else [keys[0]] + Insert(key, keys[1..])
  }

  function Sort(keys: seq<string>): seq<string> {
    if keys == [] then [] else Insert(keys[0], Sort(keys[1..]))
  }

  lemma {:induction false} InsertSorts(key: string, keys: seq<string>)
    requires Increasing(keys) && key !in keys
    ensures Increasing(Insert(key, keys))
    ensures forall k :: k in Insert(key, keys) <==> k == key || k in keys
  {
    if keys == [] {
    } else if Less(key, keys[0]) {
      forall i, k | 0 <= i < k < |keys| + 1 ensures Less(([key] + keys)[i], ([key] + keys)[k]) {
        if i == 0 && k > 1 { LexTransitive(Units(key), Units(keys[0]), Units(keys[k - 1])); }
      }
    } else {
      InsertSorts(key, keys[1..]);
      LessTotal(key, keys[0]);
      var rest := Insert(key, keys[1..]);
      forall k | 0 <= k < |rest| ensures Less(keys[0], rest[k]) {
        assert rest[k] in rest;
        if rest[k] != key { var i :| 0 <= i < |keys[1..]| && keys[1..][i] == rest[k]; }
      }
      assert keys == [keys[0]] + keys[1..];
    }
  }

  lemma {:induction false} SortSorts(keys: seq<string>)
    requires Distinct(keys)
    ensures Increasing(Sort(keys)) && forall k :: k in Sort(keys) <==> k in keys
  {
    if keys != [] {
      SortSorts(keys[1..]);
      InsertSorts(keys[0], Sort(keys[1..]));
      assert keys == [keys[0]] + keys[1..];
    }
  }

  /** There is only one increasing list of a set of keys. */
  lemma {:induction false} SortedUnique(a: seq<string>, b: seq<string>)
    requires Increasing(a) && Increasing(b) && forall k :: k in a <==> k in b
    ensures a == b
  {
    if a == [] {
      assert forall i | 0 <= i < |b| :: b[i] in b;
    } else {
      assert a[0] in a && a[0] in b;
      assert b[0] in b && b[0] in a;
      LessTotal(a[0], b[0]);
      assert a[0] == b[0];
      forall k ensures k in a[1..] <==> k in b[1..] {
        LessTotal(a[0], a[0]);
        assert k in a[1..] ==> k in a && k != a[0];
        assert k in b[1..] ==> k in b && k != b[0];
        assert k in a && k != a[0] ==> k in a[1..];
        assert k in b && k != b[0] ==> k in b[1..];
      }
      SortedUnique(a[1..], b[1..]);
      assert a == [a[0]] + a[1..] && b == [b[0]] + b[1..];
    }
  }

  // ---------------------------------------------------------------- text

  function Digit(n: nat): char
    requires n < 10
  {
    '0' + n as char
  }

  function Digits(n: nat): (d: string)
    ensures d != "" && forall i | 0 <= i < |d| :: IsDigit(d[i])
  {
    if n < 10 then [Digit(n)] else Digits(n / 10) + [Digit(n % 10)]
  }

  predicate IsDigit(c: char) {
    '0' <= c <= '9'
  }

  function NumberText(n: int): string {
    if n < 0 then "-" + Digits(-n) else Digits(n)
  }

  function Hex(n: nat): char
    requires n < 16
  {
    if n < 10 then '0' + n as char else 'a' + (n - 10) as char
  }

  /** The escapes of `JSON.stringify`, section 7 of RFC 8259. */
  function Escape(c: char): string {
    if c == '\"' then ['\\', '\"']
    else if c == '\\' then ['\\', '\\']
    else if c == '\U{8}' then ['\\', 'b']
    else if c == '\U{C}' then ['\\', 'f']
    else if c == '\n' then ['\\', 'n']
    else if c == '\r' then ['\\', 'r']
    else if c == '\t' then ['\\', 't']
    else if c < ' ' then ['\\', 'u', '0', '0', Hex(c as nat / 16), Hex(c as nat % 16)]
    else [c]
  }

  function EscapeAll(s: string): string {
    if s == "" then "" else Escape(s[0]) + EscapeAll(s[1..])
  }

  function Quote(s: string): string {
    "\"" + EscapeAll(s) + "\""
  }

  function Canonical(j: Json): string
    decreases j, 1, 0
  {
    match j
    case Null => "null"
    case Bool(b) => if b then "true" else "false"
    case Number(n) => NumberText(n)
    case Text(t) => Quote(t)
    case Arr(items) => "[" + Items(j, 0) + "]"
    case Obj(fields) =>
      SortKeeps(Keys(fields));
      "{" + Fields(j, Sort(Keys(fields))) + "}"
  }

  /** The items from position `i` on, joined by commas. */
  function Items(j: Json, i: nat): string
    requires j.Arr? && i <= |j.items|
    decreases j, 0, |j.items| - i
  {
    if i == |j.items| then ""
    else Canonical(j.items[i]) + (if i + 1 == |j.items| then "" else "," + Items(j, i + 1))
  }

  /** The members of an object for the given keys, joined by commas. */
  function Fields(j: Json, keys: seq<string>): string
    requires j.Obj? && forall k | k in keys :: k in Keys(j.fields)
    decreases j, 0, |keys|
  {
    if keys == [] then ""
    else
      Quote(keys[0]) + ":" + Canonical(j.fields[IndexOf(j.fields, keys[0])].value)
      + (if |keys| == 1 then "" else "," + Fields(j, keys[1..]))
  }

  lemma {:induction false} InsertKeeps(key: string, keys: seq<string>)
    ensures forall k :: k in Insert(key, keys) <==> k == key || k in keys
  {
    if keys != [] && !Less(key, keys[0]) {
      InsertKeeps(key, keys[1..]);
      assert keys == [keys[0]] + keys[1..];
    }
  }

  lemma {:induction false} SortKeeps(keys: seq<string>)
    ensures forall k :: k in Sort(keys) <==> k in keys
  {
    if keys != [] {
      SortKeeps(keys[1..]);
      InsertKeeps(keys[0], Sort(keys[1..]));
      assert keys == [keys[0]] + keys[1..];
    }
  }

  // ---------------------------------------------------------------- reading a text back

  /** What may come after a value inside a larger text: nothing, or a separator. */
  predicate Ends(rest: string) {
    rest == "" || rest[0] in {',', ']', '}'}
  }

  /** How many digits a text starts with. */
  function LeadingDigits(s: string): nat {
    if s == "" || !IsDigit(s[0]) then 0 else 1 + LeadingDigits(s[1..])
  }

  lemma {:induction false} AllLeading(d: string, x: string)
    requires (forall i | 0 <= i < |d| :: IsDigit(d[i])) && (x == "" || !IsDigit(x[0]))
    ensures LeadingDigits(d + x) == |d|
  {
    if d == "" {
      assert d + x == x;
    } else {
      AllLeading(d[1..], x);
      assert (d + x)[1..] == d[1..] + x;
    }
  }

  lemma DigitsDecode(n: nat, m: nat, x: string, y: string)
    requires Digits(n) + x == Digits(m) + y && (x == "" || !IsDigit(x[0])) && (y == "" || !IsDigit(y[0]))
    ensures n == m && x == y
  {
    var a, b := Digits(n), Digits(m);
    AllLeading(a, x);
    AllLeading(b, y);
    assert a == (a + x)[..|a|] && b == (b + y)[..|b|];
    assert x == (a + x)[|a|..] && y == (b + y)[|b|..];
    DigitsInjective(n, m);
  }

  lemma DigitsShort(n: nat)
    ensures |Digits(n)| == 1 <==> n < 10
  {
    if n >= 10 { assert Digits(n) == Digits(n / 10) + [Digit(n % 10)]; }
  }

  lemma {:induction false} DigitsInjective(n: nat, m: nat)
    requires Digits(n) == Digits(m)
    ensures n == m
  {
    var a, b := Digits(n), Digits(m);
    DigitsShort(n);
    DigitsShort(m);
    assert a[|a| - 1] == b[|b| - 1];
    if n >= 10 {
      assert a[..|a| - 1] == Digits(n / 10) && b[..|b| - 1] == Digits(m / 10);
      DigitsInjective(n / 10, m / 10);
    }
  }

  lemma NumberStart(n: int, x: string)
    ensures NumberText(n) != "" && (NumberText(n) + x)[0] == NumberText(n)[0]
    ensures NumberText(n)[0] == '-' <==> n < 0
    ensures NumberText(n)[0] == '-' || IsDigit(NumberText(n)[0])
  {
    hide Digits;
  }

  lemma NumberDecode(n: int, m: int, x: string, y: string)
    requires NumberText(n) + x == NumberText(m) + y && Ends(x) && Ends(y)
    ensures n == m && x == y
  {
    hide Digits, NumberText;
    NumberStart(n, x);
    NumberStart(m, y);
    NumberRest(n, x);
    NumberRest(m, y);
    if n < 0 { DigitsDecode(-n, -m, x, y); } else { DigitsDecode(n, m, x, y); }
  }

  lemma NumberRest(n: int, x: string)
    ensures if n < 0 then |NumberText(n)| > 0 && (NumberText(n) + x)[1..] == Digits(-n) + x else NumberText(n) + x == Digits(n) + x
  {
    hide Digits;
  }

  lemma EscapeDecode(c: char, d: char, x: string, y: string)
    requires Escape(c) + x == Escape(d) + y
    ensures c == d && x == y
  {
    var a, b := Escape(c) + x, Escape(d) + y;
    assert a[0] == b[0] && (|Escape(c)| > 1 && |Escape(d)| > 1 ==> a[1] == b[1]);
    assert |Escape(c)| == 6 && |Escape(d)| == 6 ==> a[4] == b[4] && a[5] == b[5];
    assert |Escape(c)| == |Escape(d)|;
    assert x == a[|Escape(c)|..] && y == b[|Escape(d)|..];
  }

  lemma EscapeAllStart(s: string, x: string)
    ensures (EscapeAll(s) + "\"" + x)[0] == '\"' <==> s == ""
  {
    if s != "" { assert (EscapeAll(s) + "\"" + x)[0] == Escape(s[0])[0]; }
  }

  lemma EscapeAllSplit(s: string, x: string)
    requires s != ""
    ensures EscapeAll(s) + "\"" + x == Escape(s[0]) + (EscapeAll(s[1..]) + "\"" + x)
  {
    hide Escape;
  }

  lemma {:induction false} EscapeAllDecode(s: string, t: string, x: string, y: string)
    requires EscapeAll(s) + "\"" + x == EscapeAll(t) + "\"" + y
    ensures s == t && x == y
  {
    hide Escape;
    EscapeAllStart(s, x);
    EscapeAllStart(t, y);
    if s == "" {
      assert x == (EscapeAll(s) + "\"" + x)[1..] && y == (EscapeAll(t) + "\"" + y)[1..];
    } else {
      hide EscapeAll;
      EscapeAllSplit(s, x);
      EscapeAllSplit(t, y);
      EscapeDecode(s[0], t[0], EscapeAll(s[1..]) + "\"" + x, EscapeAll(t[1..]) + "\"" + y);
      EscapeAllDecode(s[1..], t[1..], x, y);
      assert s == [s[0]] + s[1..] && t == [t[0]] + t[1..];
    }
  }

  lemma QuoteDecode(s: string, t: string, x: string, y: string)
    requires Quote(s) + x == Quote(t) + y
    ensures s == t && x == y
  {
    var a, b := Quote(s) + x, Quote(t) + y;
    assert a[1..] == EscapeAll(s) + "\"" + x && b[1..] == EscapeAll(t) + "\"" + y;
    EscapeAllDecode(s, t, x, y);
  }

  // ---------------------------------------------------------------- the text determines the value

  /** The first character of a text tells what kind of value it is. */
  lemma CanonicalStart(j: Json, x: string)
    ensures Canonical(j) != "" && (Canonical(j) + x)[0] == Canonical(j)[0]
    ensures var c := Canonical(j)[0];
            match j
            case Null => c == 'n'
            case Bool(b) => c == (if b then 't' else 'f')
            case Number(_) => c == '-' || IsDigit(c)
            case Text(_) => c == '\"'
            case Arr(_) => c == '['
            case Obj(_) => c == '{'
  {
    hide Items, Fields, Sort, Keys;
    if j.Number? { NumberStart(j.number, x); }
  }

  lemma {:induction false} CanonicalDecode(a: Json, b: Json, x: string, y: string)
    requires WellFormed(a) && WellFormed(b) && Ends(x) && Ends(y)
    requires Canonical(a) + x == Canonical(b) + y
    ensures Meaning(a) == Meaning(b) && x == y
    decreases a, 1, 0
  {
    hide NumberText, Quote, Sort, Keys, Items, Fields, Less, IndexOf;
    CanonicalStart(a, x);
    CanonicalStart(b, y);
    match a
    case Null => assert x == (Canonical(a) + x)[4..] && y == (Canonical(b) + y)[4..];
    case Bool(f) =>
      var n := if f then 4 else 5;
      assert x == (Canonical(a) + x)[n..] && y == (Canonical(b) + y)[n..];
    case Number(n) => NumberDecode(n, b.number, x, y);
    case Text(t) => QuoteDecode(t, b.text, x, y);
    case Arr(items) =>
      hide Meaning;
      assert (Canonical(a) + x)[1..] == Items(a, 0) + ("]" + x);
      assert (Canonical(b) + y)[1..] == Items(b, 0) + ("]" + y);
      ItemsDecode(a, b, 0, "]" + x, "]" + y);
      assert x == ("]" + x)[1..] && y == ("]" + y)[1..];
    case Obj(fields) =>
      hide Meaning, MeaningOf;
      SortKeeps(Keys(fields));
      SortKeeps(Keys(b.fields));
      var ks, ls := Sort(Keys(fields)), Sort(Keys(b.fields));
      assert (Canonical(a) + x)[1..] == Fields(a, ks) + ("}" + x);
      assert (Canonical(b) + y)[1..] == Fields(b, ls) + ("}" + y);
      FieldsDecode(a, b, ks, ls, "}" + x, "}" + y);
      assert x == ("}" + x)[1..] && y == ("}" + y)[1..];
      SameFields(a, b);
  }

  lemma {:induction false} ItemsDecode(a: Json, b: Json, i: nat, x: string, y: string)
    requires a.Arr? && b.Arr? && WellFormed(a) && WellFormed(b) && i <= |a.items| && i <= |b.items|
    requires x != "" && x[0] == ']' && y != "" && y[0] == ']'
    requires Items(a, i) + x == Items(b, i) + y
    requires forall k | 0 <= k < i :: Meaning(a.items[k]) == Meaning(b.items[k])
    requires i > 0 ==> (i == |a.items| <==> i == |b.items|)
    ensures Meaning(a) == Meaning(b) && x == y
    decreases a, 0, |a.items| - i
  {
    ItemsStart(a, i, x);
    ItemsStart(b, i, y);
    if i == |a.items| {
      assert Items(a, i) + x == x && Items(b, i) + y == y;
      ArrMeaning(a);
      ArrMeaning(b);
      hide Meaning;
    } else {
      hide Meaning, Canonical, Items;
      ItemsSplit(a, i, x);
      ItemsSplit(b, i, y);
      CanonicalDecode(a.items[i], b.items[i], AfterItem(a, i) + x, AfterItem(b, i) + y);
      assert (AfterItem(a, i) + x)[0] == (AfterItem(b, i) + y)[0];
      assert (AfterItem(a, i) + x)[1..] == (AfterItem(b, i) + y)[1..];
      ItemsDecode(a, b, i + 1, x, y);
    }
  }

  /** The text between an item and the closing bracket. */
  function AfterItem(j: Json, i: nat): string
    requires j.Arr? && i < |j.items|
  {
    if i + 1 == |j.items| then "" else "," + Items(j, i + 1)
  }

  lemma ItemsSplit(a: Json, i: nat, x: string)
    requires a.Arr? && i < |a.items| && x != "" && x[0] == ']'
    ensures Items(a, i) + x == Canonical(a.items[i]) + (AfterItem(a, i) + x)
    ensures Ends(AfterItem(a, i) + x) && AfterItem(a, i) + x != ""
    ensures (AfterItem(a, i) + x)[0] == ']' <==> i + 1 == |a.items|
    ensures if i + 1 == |a.items| then AfterItem(a, i) + x == x == Items(a, i + 1) + x
            else (AfterItem(a, i) + x)[1..] == Items(a, i + 1) + x
  {
    hide Canonical;
  }

  lemma ArrMeaning(j: Json)
    requires j.Arr?
    ensures Meaning(j).ArrValue? && |Meaning(j).items| == |j.items|
    ensures forall i | 0 <= i < |j.items| :: Meaning(j).items[i] == Meaning(j.items[i])
  {
  }

  lemma ItemsStart(a: Json, i: nat, x: string)
    requires a.Arr? && i <= |a.items| && x != "" && x[0] == ']'
    ensures Items(a, i) + x != "" && ((Items(a, i) + x)[0] == ']' <==> i == |a.items|)
  {
    if i < |a.items| {
      CanonicalStart(a.items[i], "");
      assert (Items(a, i) + x)[0] == Canonical(a.items[i])[0];
    } else {
      assert Items(a, i) + x == x;
    }
  }

  lemma {:induction false} FieldsDecode(a: Json, b: Json, ks: seq<string>, ls: seq<string>, x: string, y: string)
    requires a.Obj? && b.Obj? && WellFormed(a) && WellFormed(b)
    requires (forall k | k in ks :: k in Keys(a.fields)) && (forall k | k in ls :: k in Keys(b.fields))
    requires x != "" && x[0] == '}' && y != "" && y[0] == '}'
    requires Fields(a, ks) + x == Fields(b, ls) + y
    ensures ks == ls && x == y
    ensures forall k | k in ks :: MeaningOf(a, k) == MeaningOf(b, k)
    decreases a, 0, |ks|
  {
    hide Meaning, Canonical, Keys, Quote, Fields, Less, IndexOf;
    FieldsStart(a, ks, x);
    FieldsStart(b, ls, y);
    if ks == [] {
      assert Fields(a, ks) + x == x && Fields(b, ls) + y == y by { FieldsEmpty(a); FieldsEmpty(b); }
    } else {
      FieldsSplit(a, ks, x);
      FieldsSplit(b, ls, y);
      var va, vb := a.fields[IndexOf(a.fields, ks[0])].value, b.fields[IndexOf(b.fields, ls[0])].value;
      var restA, restB := AfterField(a, ks) + x, AfterField(b, ls) + y;
      QuoteDecode(ks[0], ls[0], ":" + (Canonical(va) + restA), ":" + (Canonical(vb) + restB));
      assert (":" + (Canonical(va) + restA))[1..] == Canonical(va) + restA;
      assert (":" + (Canonical(vb) + restB))[1..] == Canonical(vb) + restB;
      CanonicalDecode(va, vb, restA, restB);
      assert restA[1..] == restB[1..];
      assert ks == [ks[0]] + ks[1..] && ls == [ls[0]] + ls[1..];
      FieldsDecode(a, b, ks[1..], ls[1..], x, y);
    }
  }

  lemma FieldsEmpty(j: Json)
    requires j.Obj?
    ensures Fields(j, []) == ""
  {
  }

  /** The text between a member and the closing brace. */
  function AfterField(j: Json, keys: seq<string>): string
    requires j.Obj? && keys != [] && forall k | k in keys :: k in Keys(j.fields)
  {
    if |keys| == 1 then "" else "," + Fields(j, keys[1..])
  }

  lemma FieldsSplit(a: Json, ks: seq<string>, x: string)
    requires a.Obj? && ks != [] && (forall k | k in ks :: k in Keys(a.fields)) && x != "" && x[0] == '}'
    ensures var rest := AfterField(a, ks) + x;
            && Fields(a, ks) + x == Quote(ks[0]) + (":" + (Canonical(a.fields[IndexOf(a.fields, ks[0])].value) + rest))
            && Ends(rest) && rest != "" && (rest[0] == '}' <==> |ks| == 1)
            && (if |ks| == 1 then rest == x == Fields(a, ks[1..]) + x else rest[1..] == Fields(a, ks[1..]) + x)
  {
    hide Quote, Canonical, Keys, IndexOf, Fields, AfterField, Ends;
    FieldsStep(a, ks);
    Regroup(Quote(ks[0]), Canonical(a.fields[IndexOf(a.fields, ks[0])].value), AfterField(a, ks), x);
    RestFollows(a, ks, x);
  }

  lemma RestFollows(a: Json, ks: seq<string>, x: string)
    requires a.Obj? && ks != [] && (forall k | k in ks :: k in Keys(a.fields)) && x != "" && x[0] == '}'
    ensures var rest := AfterField(a, ks) + x;
            && Ends(rest) && rest != "" && (rest[0] == '}' <==> |ks| == 1)
            && (if |ks| == 1 then rest == x == Fields(a, ks[1..]) + x else rest[1..] == Fields(a, ks[1..]) + x)
  {
    hide Keys, Fields;
    if |ks| == 1 {
      FieldsEmpty(a);
      assert ks[1..] == [] && "" + x == x;
    } else {
      var more := Fields(a, ks[1..]);
      assert "," + more + x == "," + (more + x);
    }
  }

  lemma FieldsStep(a: Json, ks: seq<string>)
    requires a.Obj? && ks != [] && forall k | k in ks :: k in Keys(a.fields)
    ensures Fields(a, ks) == Quote(ks[0]) + ":" + Canonical(a.fields[IndexOf(a.fields, ks[0])].value) + AfterField(a, ks)
  {
    hide Quote, Canonical, Keys, IndexOf;
  }

  lemma Regroup(q: string, c: string, tail: string, x: string)
    ensures q + ":" + c + tail + x == q + (":" + (c + (tail + x)))
  {
  }

  lemma FieldsStart(a: Json, ks: seq<string>, x: string)
    requires a.Obj? && (forall k | k in ks :: k in Keys(a.fields)) && x != "" && x[0] == '}'
    ensures Fields(a, ks) + x != "" && ((Fields(a, ks) + x)[0] == '}' <==> ks == [])
  {
    if ks == [] {
      assert Fields(a, ks) + x == x;
    } else {
      assert (Fields(a, ks) + x)[0] == '\"';
    }
  }

  function MeaningOf(j: Json, key: string): Value
    requires j.Obj? && key in Keys(j.fields)
  {
    Meaning(j.fields[IndexOf(j.fields, key)].value)
  }

  /** An object means the map of its keys to what their values mean. */
  lemma ObjMeaning(j: Json)
    requires j.Obj?
    ensures Meaning(j) == ObjValue(map k | k in Keys(j.fields) :: MeaningOf(j, k))
  {
  }

  lemma SameFields(a: Json, b: Json)
    requires a.Obj? && b.Obj? && WellFormed(a) && WellFormed(b)
    requires forall k :: k in Keys(a.fields) <==> k in Keys(b.fields)
    requires forall k | k in Keys(a.fields) :: MeaningOf(a, k) == MeaningOf(b, k)
    ensures Meaning(a) == Meaning(b)
  {
    hide Meaning, MeaningOf, Keys, WellFormed;
    ObjMeaning(a);
    ObjMeaning(b);
  }

  // ---------------------------------------------------------------- the value determines the text

  lemma {:induction false} MeaningPrints(a: Json, b: Json)
    requires WellFormed(a) && WellFormed(b) && Meaning(a) == Meaning(b)
    ensures Canonical(a) == Canonical(b)
    decreases a, 1, 0
  {
    match a
    case Arr(items) =>
      ArrMeaning(a);
      ArrMeaning(b);
      ItemsPrint(a, b, 0);
    case Obj(fields) =>
      ObjMeaning(a);
      ObjMeaning(b);
      assert forall k :: k in Keys(fields) <==> k in Meaning(a).fields;
      assert forall k :: k in Keys(b.fields) <==> k in Meaning(b).fields;
      SortSorts(Keys(fields));
      SortSorts(Keys(b.fields));
      SortedUnique(Sort(Keys(fields)), Sort(Keys(b.fields)));
      FieldsPrint(a, b, Sort(Keys(fields)));
    case _ =>
  }

  lemma {:induction false} ItemsPrint(a: Json, b: Json, i: nat)
    requires a.Arr? && b.Arr? && WellFormed(a) && WellFormed(b) && |a.items| == |b.items| && i <= |a.items|
    requires forall k | 0 <= k < |a.items| :: Meaning(a.items[k]) == Meaning(b.items[k])
    ensures Items(a, i) == Items(b, i)
    decreases a, 0, |a.items| - i
  {
    if i < |a.items| {
      MeaningPrints(a.items[i], b.items[i]);
      ItemsPrint(a, b, i + 1);
    }
  }

  lemma {:induction false} FieldsPrint(a: Json, b: Json, ks: seq<string>)
    requires a.Obj? && b.Obj? && WellFormed(a) && WellFormed(b)
    requires forall k | k in ks :: k in Keys(a.fields) && k in Keys(b.fields) && MeaningOf(a, k) == MeaningOf(b, k)
    ensures Fields(a, ks) == Fields(b, ks)
    decreases a, 0, |ks|
  {
    if ks != [] {
      assert ks[0] in ks;
      MeaningPrints(a.fields[IndexOf(a.fields, ks[0])].value, b.fields[IndexOf(b.fields, ks[0])].value);
      FieldsPrint(a, b, ks[1..]);
    }
  }

  // ---------------------------------------------------------------- main results

  /** Comparing canonical texts decides equality of JSON values with objects read as maps. */
  lemma CanonicalDecides(a: Json, b: Json)
    requires WellFormed(a) && WellFormed(b)
    ensures Canonical(a) == Canonical(b) <==> Meaning(a) == Meaning(b)
  {
    if Canonical(a) == Canonical(b) { CanonicalDecode(a, b, "", ""); }
    if Meaning(a) == Meaning(b) { MeaningPrints(a, b); }
  }

  /** `JSON.stringify` of a list of texts, the key under which sources and messages are indexed. */
  function ListKey(parts: seq<string>): string {
    Canonical(Arr(seq(|parts|, i requires 0 <= i < |parts| => Text(parts[i]))))
  }

  lemma ListKeyInjective(a: seq<string>, b: seq<string>)
    ensures ListKey(a) == ListKey(b) <==> a == b
  {
    if ListKey(a) == ListKey(b) {
      var x := Arr(seq(|a|, i requires 0 <= i < |a| => Text(a[i])));
      var y := Arr(seq(|b|, i requires 0 <= i < |b| => Text(b[i])));
      CanonicalDecides(x, y);
      assert |Meaning(x).items| == |a| && |Meaning(y).items| == |b|;
      forall i | 0 <= i < |a| ensures a[i] == b[i] {
        assert Meaning(x).items[i] == TextValue(a[i]) && Meaning(y).items[i] == TextValue(b[i]);
      }
    }
  }
}
