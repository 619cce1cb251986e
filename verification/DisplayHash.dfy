/** The canonical text that `computeDisplayHash` of the SDK's `client.ts` hashes:
    JSON with the keys of every object put in one fixed order. */
module CanonicalJson {
  import opened Decimals

  /** A JSON value.  A number is the text `JSON.stringify` prints for it. */
  datatype Json =
    | Null
    | Bool(b: bool)
    | Num(text: string)
    | Str(s: string)
    | Arr(items: seq<Json>)
    | Obj(fields: seq<Field>)

  datatype Field = Field(key: string, value: Json)

  predicate NumberChar(c: char) {
    IsDigit(c) || c == '-' || c == '+' || c == '.' || c == 'e' || c == 'E'
  }

  predicate NumberText(s: string) {
    s != "" && (IsDigit(s[0]) || s[0] == '-') && forall i :: 0 <= i < |s| ==> NumberChar(s[i])
  }

  ghost predicate DistinctKeys(fs: seq<Field>) {
    forall i, j :: 0 <= i < j < |fs| ==> fs[i].key != fs[j].key
  }

  ghost predicate WellFormed(v: Json) {
    match v
    case Num(text) => NumberText(text)
    case Arr(items) => forall i :: 0 <= i < |items| ==> WellFormed(items[i])
    case Obj(fields) => DistinctKeys(fields) && forall i :: 0 <= i < |fields| ==> WellFormed(fields[i].value)
    case _ => true
  }

  // ----- Printing

  function HexChar(v: int): char
    requires 0 <= v < 16
  {
    if v < 10 then DigitChar(v) else (v - 10 + 'a' as int) as char
  }

  function EscapeChar(c: char): string {
    var n := c as int;
    if c == '"' then "\\\""
    else if c == '\\' then "\\\\"
    else if n == 8 then "\\b"
    else if n == 9 then "\\t"
    else if n == 10 then "\\n"
    else if n == 12 then "\\f"
    else if n == 13 then "\\r"
    else if n < 32 then "\\u00" + [HexChar(n / 16), HexChar(n % 16)]
    else [c]
  }

  /** The characters of a string literal after its opening quote. */
  function QuoteRest(s: string): string {
    if s == "" then "\"" else EscapeChar(s[0]) + QuoteRest(s[1..])
  }

  function Quote(s: string): string {
    "\"" + QuoteRest(s)
  }

  function Print(v: Json): string
    decreases v, 1
  {
    match v
    case Null => "null"
    case Bool(b) => if b then "true" else "false"
    case Num(text) => text
    case Str(s) => Quote(s)
    case Arr(items) => if items == [] then "[]" else "[" + Print(items[0]) + PrintItems(items[1..])
    case Obj(fields) => if fields == [] then "{}" else "{" + PrintField(fields[0]) + PrintFields(fields[1..])
  }

  function PrintItems(items: seq<Json>): string
    decreases items, 0
  {
    if items == [] then "]" else "," + Print(items[0]) + PrintItems(items[1..])
  }

  function PrintField(f: Field): string
    decreases f, 2
  {
    Quote(f.key) + ":" + Print(f.value)
  }

  function PrintFields(fields: seq<Field>): string
    decreases fields, 0
  {
    if fields == [] then "}" else "," + PrintField(fields[0]) + PrintFields(fields[1..])
  }

  // ----- The printed text determines the value

  /** What may follow a value inside a text. */
  predicate Ends(rest: string) {
    rest == "" || rest[0] == ',' || rest[0] == ']' || rest[0] == '}'
  }

  lemma EscapePrefix(c: char, d: char, x: string, y: string)
    requires EscapeChar(c) + x == EscapeChar(d) + y
    ensures c == d && x == y
    ensures (EscapeChar(c) + x)[0] != '"'
  {
    var s, t := EscapeChar(c) + x, EscapeChar(d) + y;
    assert s[0] == EscapeChar(c)[0] && t[0] == EscapeChar(d)[0];
    if |EscapeChar(c)| > 1 {
      assert s[1] == EscapeChar(c)[1];
    }
    if |EscapeChar(d)| > 1 {
      assert t[1] == EscapeChar(d)[1];
    }
    if |EscapeChar(c)| == 6 && |EscapeChar(d)| == 6 {
      assert s[4] == EscapeChar(c)[4] && t[4] == EscapeChar(d)[4];
      assert s[5] == EscapeChar(c)[5] && t[5] == EscapeChar(d)[5];
      HexCharInjective(c as int / 16, d as int / 16);
      HexCharInjective(c as int % 16, d as int % 16);
    }
    assert c == d;
    assert x == s[|EscapeChar(c)|..] && y == t[|EscapeChar(d)|..];
  }

  lemma HexCharInjective(v: int, w: int)
    requires 0 <= v < 16 && 0 <= w < 16 && HexChar(v) == HexChar(w)
    ensures v == w
  {}

  lemma QuoteRestStart(s: string, x: string)
    ensures QuoteRest(s) + x != "" && ((QuoteRest(s) + x)[0] == '"' <==> s == "")
    ensures s == "" ==> x == (QuoteRest(s) + x)[1..]
    ensures s != "" ==> QuoteRest(s) + x == EscapeChar(s[0]) + (QuoteRest(s[1..]) + x)
  {
    if s != "" {
      hide EscapeChar;
      EscapeStart(s[0], QuoteRest(s[1..]) + x);
      assert QuoteRest(s) + x == EscapeChar(s[0]) + (QuoteRest(s[1..]) + x);
    }
  }

  lemma {:induction false} QuoteRestPrefix(s: string, t: string, x: string, y: string)
    requires QuoteRest(s) + x == QuoteRest(t) + y
    ensures s == t && x == y
    decreases |s|
  {
    hide EscapeChar, QuoteRest;
    QuoteRestStart(s, x);
    QuoteRestStart(t, y);
    if s != "" {
      EscapePrefix(s[0], t[0], QuoteRest(s[1..]) + x, QuoteRest(t[1..]) + y);
      QuoteRestPrefix(s[1..], t[1..], x, y);
      assert s == [s[0]] + s[1..] && t == [t[0]] + t[1..];
    }
  }

  lemma EscapeStart(c: char, x: string)
    ensures EscapeChar(c) + x != "" && (EscapeChar(c) + x)[0] != '"'
  {
    EscapePrefix(c, c, x, x);
  }

  lemma QuotePrefix(s: string, t: string, x: string, y: string)
    requires Quote(s) + x == Quote(t) + y
    ensures s == t && x == y
  {
    hide QuoteRest;
    assert QuoteRest(s) + x == (Quote(s) + x)[1..];
    assert QuoteRest(t) + y == (Quote(t) + y)[1..];
    QuoteRestPrefix(s, t, x, y);
  }

  /** How many characters of a number `all` starts with. */
  function NumberLength(all: string): nat {
    if all == "" || !NumberChar(all[0]) then 0 else 1 + NumberLength(all[1..])
  }

  lemma {:induction false} NumberEnds(s: string, x: string)
    requires (forall i :: 0 <= i < |s| ==> NumberChar(s[i])) && Ends(x)
    ensures NumberLength(s + x) == |s|
  {
    if s == "" {
      assert s + x == x;
    } else {
      assert (s + x)[1..] == s[1..] + x;
      NumberEnds(s[1..], x);
    }
  }

  lemma NumberPrefix(s: string, t: string, x: string, y: string)
    requires NumberText(s) && NumberText(t) && Ends(x) && Ends(y) && s + x == t + y
    ensures s == t && x == y
  {
    NumberEnds(s, x);
    NumberEnds(t, y);
    assert s == (s + x)[..|s|] && t == (t + y)[..|t|];
    assert x == (s + x)[|s|..] && y == (t + y)[|t|..];
  }

  /** The first character tells what kind of value follows. */
  lemma PrintStart(v: Json, x: string)
    requires WellFormed(v)
    ensures Print(v) + x != ""
    ensures var c := (Print(v) + x)[0];
            && (v.Null? <==> c == 'n') && (v == Bool(true) <==> c == 't') && (v == Bool(false) <==> c == 'f')
            && (v.Str? <==> c == '"') && (v.Arr? <==> c == '[') && (v.Obj? <==> c == '{')
            && (v.Num? <==> NumberChar(c)) && c != ']' && c != '}'
  {
    assert Print(v) != "" && (Print(v) + x)[0] == Print(v)[0];
  }

  lemma {:induction false} PrintPrefix(a: Json, x: string, b: Json, y: string)
    requires WellFormed(a) && WellFormed(b) && Ends(x) && Ends(y)
    requires Print(a) + x == Print(b) + y
    ensures a == b && x == y
    decreases a, 1
  {
    PrintStart(a, x);
    PrintStart(b, y);
    match a
    case Null => assert x == ("null" + x)[4..] && y == ("null" + y)[4..];
    case Bool(t) =>
      if t { assert x == ("true" + x)[4..] && y == ("true" + y)[4..]; }
      else { assert x == ("false" + x)[5..] && y == ("false" + y)[5..]; }
    case Num(s) => NumberPrefix(s, b.text, x, y);
    case Str(s) => QuotePrefix(s, b.s, x, y);
    case Arr(items) => ArrPrefix(a, x, b, y);
    case Obj(fields) => ObjPrefix(a, x, b, y);
  }

  /** After its bracket, an array's text starts an item or ends. */
  function ArrRest(items: seq<Json>): string {
    if items == [] then "]" else Print(items[0]) + PrintItems(items[1..])
  }

  ghost predicate AllWellFormed(items: seq<Json>) {
    forall i :: 0 <= i < |items| ==> WellFormed(items[i])
  }

  lemma ArrPrint(items: seq<Json>)
    ensures Print(Arr(items)) == "[" + ArrRest(items)
  {
    if items != [] {
      assert Print(Arr(items)) == "[" + Print(items[0]) + PrintItems(items[1..]);
    }
  }

  lemma ArrRestStart(items: seq<Json>, x: string)
    requires AllWellFormed(items)
    ensures ArrRest(items) + x == (Print(Arr(items)) + x)[1..]
    ensures ArrRest(items) + x != "" && ((ArrRest(items) + x)[0] == ']' <==> items == [])
    ensures items == [] ==> x == (ArrRest(items) + x)[1..]
    ensures items != [] ==> ArrRest(items) + x == Print(items[0]) + (PrintItems(items[1..]) + x)
                            && Ends(PrintItems(items[1..]) + x) && AllWellFormed(items[1..])
  {
    ArrPrint(items);
    hide Print, WellFormed, AllWellFormed;
    var rest := ArrRest(items);
    assert ("[" + rest) + x == "[" + (rest + x);
    if items != [] {
      FirstItemStart(items, x);
    }
    hide PrintItems;
  }

  lemma FirstItemStart(items: seq<Json>, x: string)
    requires items != [] && AllWellFormed(items)
    ensures var rest := PrintItems(items[1..]) + x;
            && ArrRest(items) + x == Print(items[0]) + rest && Ends(rest) && AllWellFormed(items[1..])
            && ArrRest(items) + x != "" && (ArrRest(items) + x)[0] != ']'
  {
    assert WellFormed(items[0]) && AllWellFormed(items[1..]);
    hide Print, PrintItems, WellFormed, AllWellFormed;
    ItemsStart(items[1..], x);
    ValueStart(items[0], PrintItems(items[1..]) + x);
    ConcatConcat(Print(items[0]), PrintItems(items[1..]), x);
  }

  lemma ConcatConcat(s: string, t: string, x: string)
    ensures (s + t) + x == s + (t + x)
  {}

  lemma ValueStart(v: Json, x: string)
    requires WellFormed(v)
    ensures Print(v) + x != "" && (Print(v) + x)[0] != ']'
  {
    PrintStart(v, x);
  }

  lemma {:induction false} ArrPrefix(a: Json, x: string, b: Json, y: string)
    requires WellFormed(a) && WellFormed(b) && a.Arr? && b.Arr?
    requires Print(a) + x == Print(b) + y
    ensures a == b && x == y
    decreases a, 0
  {
    var s, t := a.items, b.items;
    assert AllWellFormed(s) && AllWellFormed(t);
    assert s != [] ==> WellFormed(s[0]);
    assert t != [] ==> WellFormed(t[0]);
    hide Print, PrintItems, ArrRest, WellFormed, AllWellFormed;
    ArrRestStart(s, x);
    ArrRestStart(t, y);
    if s != [] {
      var u, w := PrintItems(s[1..]) + x, PrintItems(t[1..]) + y;
      PrintPrefix(s[0], u, t[0], w);
      ItemsPrefix(s[1..], x, t[1..], y);
      assert s == [s[0]] + s[1..] && t == [t[0]] + t[1..];
    }
  }

  lemma ItemsStart(items: seq<Json>, x: string)
    requires AllWellFormed(items)
    ensures PrintItems(items) + x != "" && (PrintItems(items) + x)[0] == if items == [] then ']' else ','
    ensures items == [] ==> x == (PrintItems(items) + x)[1..]
    ensures items != [] ==> (PrintItems(items) + x)[1..] == Print(items[0]) + (PrintItems(items[1..]) + x)
                            && Ends(PrintItems(items[1..]) + x) && AllWellFormed(items[1..]) && WellFormed(items[0])
  {
    if items != [] {
      assert PrintItems(items) + x == "," + (Print(items[0]) + (PrintItems(items[1..]) + x));
    }
  }

  lemma {:induction false} ItemsPrefix(s: seq<Json>, x: string, t: seq<Json>, y: string)
    requires AllWellFormed(s) && AllWellFormed(t)
    requires PrintItems(s) + x == PrintItems(t) + y
    ensures s == t && x == y
    decreases s, 0
  {
    hide Print, PrintItems, WellFormed, AllWellFormed;
    ItemsStart(s, x);
    ItemsStart(t, y);
    if s != [] {
      var u, w := PrintItems(s[1..]) + x, PrintItems(t[1..]) + y;
      PrintPrefix(s[0], u, t[0], w);
      ItemsPrefix(s[1..], x, t[1..], y);
      assert s == [s[0]] + s[1..] && t == [t[0]] + t[1..];
    }
  }

  lemma FieldStart(f: Field, x: string)
    ensures PrintField(f) + x == Quote(f.key) + (":" + (Print(f.value) + x))
    ensures Print(f.value) + x == (":" + (Print(f.value) + x))[1..]
    ensures PrintField(f) + x != "" && (PrintField(f) + x)[0] == '"'
  {
    hide QuoteRest, Print;
  }

  lemma {:induction false} FieldPrefix(f: Field, x: string, g: Field, y: string)
    requires WellFormed(f.value) && WellFormed(g.value) && Ends(x) && Ends(y)
    requires PrintField(f) + x == PrintField(g) + y
    ensures f == g && x == y
    decreases f, 2
  {
    hide Quote, Print, PrintField, WellFormed;
    FieldStart(f, x);
    FieldStart(g, y);
    QuotePrefix(f.key, g.key, ":" + (Print(f.value) + x), ":" + (Print(g.value) + y));
    PrintPrefix(f.value, x, g.value, y);
  }

  function ObjRest(fields: seq<Field>): string {
    if fields == [] then "}" else PrintField(fields[0]) + PrintFields(fields[1..])
  }

  ghost predicate FieldsWellFormed(fields: seq<Field>) {
    forall i :: 0 <= i < |fields| ==> WellFormed(fields[i].value)
  }

  lemma ObjPrint(fields: seq<Field>)
    ensures Print(Obj(fields)) == "{" + ObjRest(fields)
  {
    hide PrintField;
    if fields != [] {
      assert Print(Obj(fields)) == "{" + PrintField(fields[0]) + PrintFields(fields[1..]);
    }
  }

  lemma ObjRestStart(fields: seq<Field>, x: string)
    requires FieldsWellFormed(fields)
    ensures ObjRest(fields) + x == (Print(Obj(fields)) + x)[1..]
    ensures ObjRest(fields) + x != "" && (ObjRest(fields) + x)[0] == if fields == [] then '}' else '"'
    ensures fields == [] ==> x == (ObjRest(fields) + x)[1..]
    ensures fields != [] ==> ObjRest(fields) + x == PrintField(fields[0]) + (PrintFields(fields[1..]) + x)
                             && Ends(PrintFields(fields[1..]) + x) && FieldsWellFormed(fields[1..])
                             && WellFormed(fields[0].value)
  {
    ObjPrint(fields);
    hide Print;
    assert (("{" + ObjRest(fields)) + x)[1..] == ObjRest(fields) + x;
    if fields != [] {
      FirstField(fields, x);
    }
    hide PrintField, PrintFields, Ends, FieldsWellFormed, WellFormed;
  }

  lemma FirstField(fields: seq<Field>, x: string)
    requires FieldsWellFormed(fields) && fields != []
    ensures ObjRest(fields) + x == PrintField(fields[0]) + (PrintFields(fields[1..]) + x)
    ensures ObjRest(fields) + x != "" && (ObjRest(fields) + x)[0] == '"'
    ensures Ends(PrintFields(fields[1..]) + x) && FieldsWellFormed(fields[1..]) && WellFormed(fields[0].value)
  {
    FieldsStart(fields[1..], x);
    hide PrintField, PrintFields;
    FieldStart(fields[0], PrintFields(fields[1..]) + x);
  }

  lemma {:induction false} ObjPrefix(a: Json, x: string, b: Json, y: string)
    requires WellFormed(a) && WellFormed(b) && a.Obj? && b.Obj?
    requires Print(a) + x == Print(b) + y
    ensures a == b && x == y
    decreases a, 0
  {
    var s, t := a.fields, b.fields;
    assert FieldsWellFormed(s) && FieldsWellFormed(t);
    hide Print, PrintField, PrintFields, ObjRest, WellFormed, FieldsWellFormed;
    ObjRestStart(s, x);
    ObjRestStart(t, y);
    if s != [] {
      var u, w := PrintFields(s[1..]) + x, PrintFields(t[1..]) + y;
      FieldPrefix(s[0], u, t[0], w);
      FieldsPrefix(s[1..], x, t[1..], y);
      assert s == [s[0]] + s[1..] && t == [t[0]] + t[1..];
    }
  }

  lemma FieldsStart(fields: seq<Field>, x: string)
    requires FieldsWellFormed(fields)
    ensures PrintFields(fields) + x != "" && (PrintFields(fields) + x)[0] == if fields == [] then '}' else ','
    ensures fields == [] ==> x == (PrintFields(fields) + x)[1..]
    ensures fields != [] ==> (PrintFields(fields) + x)[1..] == PrintField(fields[0]) + (PrintFields(fields[1..]) + x)
                             && Ends(PrintFields(fields[1..]) + x) && FieldsWellFormed(fields[1..])
                             && WellFormed(fields[0].value)
  {
    hide PrintField;
    if fields != [] {
      assert PrintFields(fields) + x == "," + (PrintField(fields[0]) + (PrintFields(fields[1..]) + x));
    }
  }

  lemma {:induction false} FieldsPrefix(s: seq<Field>, x: string, t: seq<Field>, y: string)
    requires FieldsWellFormed(s) && FieldsWellFormed(t)
    requires PrintFields(s) + x == PrintFields(t) + y
    ensures s == t && x == y
    decreases s, 0
  {
    hide PrintField, PrintFields, WellFormed, FieldsWellFormed;
    FieldsStart(s, x);
    FieldsStart(t, y);
    if s != [] {
      var u, w := PrintFields(s[1..]) + x, PrintFields(t[1..]) + y;
      FieldPrefix(s[0], u, t[0], w);
      FieldsPrefix(s[1..], x, t[1..], y);
      assert s == [s[0]] + s[1..] && t == [t[0]] + t[1..];
    }
  }

  /** JSON text is unambiguous. */
  lemma PrintInjective(a: Json, b: Json)
    requires WellFormed(a) && WellFormed(b) && Print(a) == Print(b)
    ensures a == b
  {
    assert Print(a) + "" == Print(b) + "";
    PrintPrefix(a, "", b, "");
  }

  // ----- The fixed order of keys

  const PROTO := "__proto__"

  /** Comparison of strings by their code units. */
  predicate LexLess(a: string, b: string) {
    b != "" && (a == "" || a[0] < b[0] || (a[0] == b[0] && LexLess(a[1..], b[1..])))
  }

  /** An array index in canonical form, below 2^32 - 1. */
  predicate IsIndex(s: string) {
    s != "" && AllDigits(s) && (s[0] != '0' || s == "0") && Val(s) < 0xFFFF_FFFF
  }

  /** The order in which `JSON.stringify` meets the keys of an object that was
      filled in sorted order: array indices first, by number -- for canonical
      numerals that is by length, then by digits -- and then the other keys. */
  predicate KeyBefore(a: string, b: string) {
    if IsIndex(a) then !IsIndex(b) || |a| < |b| || (|a| == |b| && LexLess(a, b))
    else !IsIndex(b) && LexLess(a, b)
  }

  lemma {:induction false} LexOrder(a: string, b: string, c: string)
    ensures !LexLess(a, a)
    ensures a != b ==> LexLess(a, b) || LexLess(b, a)
    ensures LexLess(a, b) && LexLess(b, c) ==> LexLess(a, c)
    decreases |a|
  {
    if a != "" {
      LexOrder(a[1..], if b == "" then b else b[1..], if c == "" then c else c[1..]);
      assert a == [a[0]] + a[1..];
      assert b != "" ==> b == [b[0]] + b[1..];
    }
  }

  /** A strict total order. */
  lemma KeyOrder(a: string, b: string, c: string)
    ensures !KeyBefore(a, a)
    ensures a != b ==> KeyBefore(a, b) || KeyBefore(b, a)
    ensures KeyBefore(a, b) && KeyBefore(b, c) ==> KeyBefore(a, c)
    ensures KeyBefore(a, b) ==> !KeyBefore(b, a)
  {
    hide IsIndex, LexLess;
    LexOrder(a, b, c);
    LexOrder(a, b, a);
    LexOrder(b, a, b);
  }

  function InsertField(f: Field, fs: seq<Field>): seq<Field> {
    if fs == [] || KeyBefore(f.key, fs[0].key) then [f] + fs else [fs[0]] + InsertField(f, fs[1..])
  }

  ghost predicate Ordered(fs: seq<Field>) {
    forall i, j :: 0 <= i < j < |fs| ==> KeyBefore(fs[i].key, fs[j].key)
  }

  /** The value with the keys of every object in the fixed order.  A key
      "__proto__" is lost: assigning it sets the copy's prototype. */
  function Canonical(v: Json): Json
    decreases v, 1
  {
    match v
    case Arr(items) => Arr(CanonicalItems(items))
    case Obj(fields) => Obj(CanonicalFields(fields))
    case _ => v
  }

  function CanonicalItems(items: seq<Json>): (r: seq<Json>)
    ensures |r| == |items|
    decreases items, 0
  {
    if items == [] then [] else [Canonical(items[0])] + CanonicalItems(items[1..])
  }

  function CanonicalFields(fields: seq<Field>): seq<Field>
    decreases fields, 0
  {
    if fields == [] then []
    else if fields[0].key == PROTO then CanonicalFields(fields[1..])
    else InsertField(Field(fields[0].key, Canonical(fields[0].value)), CanonicalFields(fields[1..]))
  }

  /** What `computeDisplayHash` hashes. */
  function CanonicalText(v: Json): string {
    Print(Canonical(v))
  }

  /** Equality of JSON values up to the order of keys at every depth, with keys
      "__proto__" passed over. */
  ghost predicate Same(a: Json, b: Json)
    decreases a
  {
    match a
    case Arr(items) =>
      b.Arr? && |items| == |b.items| && forall i :: 0 <= i < |items| ==> Same(items[i], b.items[i])
    case Obj(fields) =>
      && b.Obj?
      && (forall k :: k != PROTO ==> (HasKey(fields, k) <==> HasKey(b.fields, k)))
      && forall i, j :: 0 <= i < |fields| && 0 <= j < |b.fields| && fields[i].key == b.fields[j].key != PROTO
                        ==> Same(fields[i].value, b.fields[j].value)
    case _ => a == b
  }

  ghost predicate HasKey(fields: seq<Field>, k: string) {
    exists i :: 0 <= i < |fields| && fields[i].key == k
  }

  lemma {:induction false} InsertMembers(f: Field, fs: seq<Field>, g: Field)
    ensures g in InsertField(f, fs) <==> g == f || g in fs
  {
    if fs != [] {
      InsertMembers(f, fs[1..], g);
      assert fs == [fs[0]] + fs[1..];
    }
  }

  lemma {:induction false} InsertOrdered(f: Field, fs: seq<Field>)
    requires Ordered(fs) && forall i :: 0 <= i < |fs| ==> fs[i].key != f.key
    ensures Ordered(InsertField(f, fs))
  {
    hide KeyBefore;
    if fs == [] {
    } else if KeyBefore(f.key, fs[0].key) {
      forall i | 0 <= i < |fs|
        ensures KeyBefore(f.key, fs[i].key)
      {
        KeyOrder(f.key, fs[0].key, fs[i].key);
      }
    } else {
      InsertOrdered(f, fs[1..]);
      var rest := InsertField(f, fs[1..]);
      forall j | 0 <= j < |rest|
        ensures KeyBefore(fs[0].key, rest[j].key)
      {
        KeyOrder(f.key, fs[0].key, f.key);
        InsertMembers(f, fs[1..], rest[j]);
        if rest[j] != f {
          var n :| 0 <= n < |fs[1..]| && fs[1..][n] == rest[j];
          assert fs[n + 1] == rest[j];
        }
      }
    }
  }

  /** A canonical object has the canonical values of the original's fields, each
      key but "__proto__" once, in order. */
  lemma {:induction false} CanonicalMembers(fields: seq<Field>, g: Field)
    ensures g in CanonicalFields(fields) <==>
            exists i :: 0 <= i < |fields| && fields[i].key == g.key != PROTO && Canonical(fields[i].value) == g.value
  {
    hide Canonical;
    if fields != [] {
      CanonicalMembers(fields[1..], g);
      assert fields == [fields[0]] + fields[1..];
      if fields[0].key != PROTO {
        InsertMembers(Field(fields[0].key, Canonical(fields[0].value)), CanonicalFields(fields[1..]), g);
      }
      forall i | 0 <= i < |fields[1..]|
        ensures fields[1..][i] == fields[i + 1]
      {}
    }
  }

  lemma {:induction false} CanonicalOrdered(fields: seq<Field>)
    requires DistinctKeys(fields)
    ensures Ordered(CanonicalFields(fields))
  {
    hide KeyBefore, Canonical;
    if fields != [] {
      var tail := CanonicalFields(fields[1..]);
      CanonicalOrdered(fields[1..]);
      forall i | 0 <= i < |tail|
        ensures tail[i].key != fields[0].key
      {
        CanonicalMembers(fields[1..], tail[i]);
        assert tail[i] in tail;
      }
      if fields[0].key != PROTO {
        InsertOrdered(Field(fields[0].key, Canonical(fields[0].value)), tail);
      }
    }
  }

  /** Ordered lists with the same fields are the same list. */
  lemma {:induction false} OrderedUnique(s: seq<Field>, t: seq<Field>)
    requires Ordered(s) && Ordered(t) && forall g :: g in s <==> g in t
    ensures s == t
    decreases |s|
  {
    hide KeyBefore;
    assert forall i :: 0 <= i < |t| ==> t[i] in t;
    assert t != [] ==> t[0] in t && t[0] in s;
    if s != [] {
      assert s[0] in t;
      var j :| 0 <= j < |t| && t[j] == s[0];
      assert t[0] in s;
      var i :| 0 <= i < |s| && s[i] == t[0];
      if j > 0 && i > 0 {
        KeyOrder(s[0].key, s[i].key, s[0].key);
      }
      assert s[0] == t[0];
      forall g
        ensures g in s[1..] <==> g in t[1..]
      {
        FirstOnce(s, g);
        FirstOnce(t, g);
      }
      OrderedUnique(s[1..], t[1..]);
      assert s == [s[0]] + s[1..] && t == [t[0]] + t[1..];
    }
  }

  lemma FirstOnce(s: seq<Field>, g: Field)
    requires s != [] && Ordered(s)
    ensures g in s[1..] <==> g in s && g != s[0]
  {
    hide KeyBefore;
    KeyOrder(s[0].key, s[0].key, s[0].key);
    assert s == [s[0]] + s[1..];
    forall i | 0 <= i < |s[1..]|
      ensures s[1..][i] == s[i + 1] && s[1..][i] != s[0]
    {
      assert KeyBefore(s[0].key, s[i + 1].key);
    }
  }

  lemma {:induction false} CanonicalWellFormed(v: Json)
    requires WellFormed(v)
    ensures WellFormed(Canonical(v))
    decreases v
  {
    match v
    case Arr(items) =>
      forall i | 0 <= i < |items|
        ensures WellFormed(CanonicalItems(items)[i])
      {
        CanonicalWellFormed(items[i]);
        CanonicalItem(items, i);
      }
    case Obj(fields) =>
      var r := CanonicalFields(fields);
      CanonicalOrdered(fields);
      forall n | 0 <= n < |r|
        ensures WellFormed(r[n].value)
      {
        CanonicalMembers(fields, r[n]);
        assert r[n] in r;
        var i :| 0 <= i < |fields| && fields[i].key == r[n].key != PROTO && Canonical(fields[i].value) == r[n].value;
        CanonicalWellFormed(fields[i].value);
      }
      OrderedDistinct(r);
    case _ =>
  }

  lemma OrderedDistinct(fs: seq<Field>)
    requires Ordered(fs)
    ensures DistinctKeys(fs)
  {
    hide KeyBefore;
    forall i, j | 0 <= i < j < |fs|
      ensures fs[i].key != fs[j].key
    {
      KeyOrder(fs[i].key, fs[i].key, fs[i].key);
    }
  }

  lemma {:induction false} CanonicalItem(items: seq<Json>, i: nat)
    requires i < |items|
    ensures CanonicalItems(items)[i] == Canonical(items[i])
  {
    hide Canonical;
    if i > 0 {
      CanonicalItem(items[1..], i - 1);
    }
  }

  /** Equal up to key order is equal once the keys are in the fixed order. */
  lemma {:induction false} SameIsCanonical(a: Json, b: Json)
    requires WellFormed(a) && WellFormed(b)
    ensures Same(a, b) <==> Canonical(a) == Canonical(b)
    decreases a
  {
    match a
    case Arr(items) =>
      if b.Arr? && |items| == |b.items| {
        forall i | 0 <= i < |items|
          ensures Same(items[i], b.items[i]) <==> CanonicalItems(items)[i] == CanonicalItems(b.items)[i]
        {
          SameIsCanonical(items[i], b.items[i]);
          CanonicalItem(items, i);
          CanonicalItem(b.items, i);
        }
      }
    case Obj(fields) =>
      if b.Obj? {
        forall i, j | 0 <= i < |fields| && 0 <= j < |b.fields|
          ensures Same(fields[i].value, b.fields[j].value) <==>
                  Canonical(fields[i].value) == Canonical(b.fields[j].value)
        {
          SameIsCanonical(fields[i].value, b.fields[j].value);
        }
        CanonicalOrdered(fields);
        CanonicalOrdered(b.fields);
        if Same(a, b) {
          SameFields(fields, b.fields);
        }
        if CanonicalFields(fields) == CanonicalFields(b.fields) {
          FieldsSame(fields, b.fields);
        }
      }
    case _ =>
  }

  /** For two lists of fields whose keys and canonical values match. */
  lemma SameFields(s: seq<Field>, t: seq<Field>)
    requires Ordered(CanonicalFields(s)) && Ordered(CanonicalFields(t))
    requires forall k :: k != PROTO ==> (HasKey(s, k) <==> HasKey(t, k))
    requires forall i, j :: 0 <= i < |s| && 0 <= j < |t| && s[i].key == t[j].key != PROTO
                            ==> Canonical(s[i].value) == Canonical(t[j].value)
    ensures CanonicalFields(s) == CanonicalFields(t)
  {
    hide Canonical, CanonicalFields, Ordered;
    forall g
      ensures g in CanonicalFields(s) <==> g in CanonicalFields(t)
    {
      CanonicalMembers(s, g);
      CanonicalMembers(t, g);
      if g in CanonicalFields(s) {
        assert HasKey(s, g.key);
        assert HasKey(t, g.key);
      }
      if g in CanonicalFields(t) {
        assert HasKey(t, g.key);
        assert HasKey(s, g.key);
      }
    }
    OrderedUnique(CanonicalFields(s), CanonicalFields(t));
  }

  lemma FieldsSame(s: seq<Field>, t: seq<Field>)
    requires Ordered(CanonicalFields(s)) && CanonicalFields(s) == CanonicalFields(t)
    ensures forall k :: k != PROTO ==> (HasKey(s, k) <==> HasKey(t, k))
    ensures forall i, j :: 0 <= i < |s| && 0 <= j < |t| && s[i].key == t[j].key != PROTO
                           ==> Canonical(s[i].value) == Canonical(t[j].value)
  {
    hide Canonical, CanonicalFields;
    forall k | k != PROTO
      ensures HasKey(s, k) <==> HasKey(t, k)
    {
      if HasKey(s, k) { KeyPasses(s, t, k); }
      if HasKey(t, k) { KeyPasses(t, s, k); }
    }
    forall i, j | 0 <= i < |s| && 0 <= j < |t| && s[i].key == t[j].key != PROTO
      ensures Canonical(s[i].value) == Canonical(t[j].value)
    {
      var f, g := Field(s[i].key, Canonical(s[i].value)), Field(t[j].key, Canonical(t[j].value));
      CanonicalMembers(s, f);
      CanonicalMembers(t, g);
      OrderedDistinct(CanonicalFields(s));
    }
  }

  lemma KeyPasses(s: seq<Field>, t: seq<Field>, k: string)
    requires CanonicalFields(s) == CanonicalFields(t) && k != PROTO && HasKey(s, k)
    ensures HasKey(t, k)
  {
    hide Canonical, CanonicalFields;
    var i :| 0 <= i < |s| && s[i].key == k;
    var g := Field(k, Canonical(s[i].value));
    CanonicalMembers(s, g);
    CanonicalMembers(t, g);
  }

  /** Two displays are hashed from the same text exactly when they are equal up to
      the order of keys at every depth. */
  lemma CanonicalTextDecides(a: Json, b: Json)
    requires WellFormed(a) && WellFormed(b)
    ensures CanonicalText(a) == CanonicalText(b) <==> Same(a, b)
  {
    SameIsCanonical(a, b);
    CanonicalWellFormed(a);
    CanonicalWellFormed(b);
    if CanonicalText(a) == CanonicalText(b) {
      PrintInjective(Canonical(a), Canonical(b));
    }
  }

  /** A field named "__proto__" does not reach the text at all. */
  lemma ProtoIsLost(v: Json)
    ensures CanonicalText(Obj([Field(PROTO, v)])) == CanonicalText(Obj([])) == "{}"
  {
    assert [Field(PROTO, v)][1..] == [];
    assert CanonicalFields([Field(PROTO, v)]) == CanonicalFields([]) == [];
  }

  // ----- The replacer

  function InsertKey(k: string, ks: seq<string>): seq<string> {
    if ks == [] || LexLess(k, ks[0]) then [k] + ks else [ks[0]] + InsertKey(k, ks[1..])
  }

  /** `Object.keys(obj).sort()`. */
  function SortedKeys(fields: seq<Field>): seq<string> {
    if fields == [] then [] else InsertKey(fields[0].key, SortedKeys(fields[1..]))
  }

  ghost predicate LexSorted(ks: seq<string>) {
    forall i, j :: 0 <= i < j < |ks| ==> LexLess(ks[i], ks[j])
  }

  lemma {:induction false} InsertKeyKeeps(k: string, ks: seq<string>)
    ensures forall x :: x in InsertKey(k, ks) <==> x == k || x in ks
    ensures LexSorted(ks) && k !in ks ==> LexSorted(InsertKey(k, ks))
  {
    hide LexLess;
    if ks != [] {
      assert ks == [ks[0]] + ks[1..];
      InsertKeyKeeps(k, ks[1..]);
      if LexSorted(ks) && k !in ks {
        LexOrder(k, ks[0], k);
        if LexLess(k, ks[0]) {
          forall i | 0 <= i < |ks|
            ensures LexLess(k, ks[i])
          {
            LexOrder(k, ks[0], ks[i]);
          }
        } else {
          var rest := InsertKey(k, ks[1..]);
          forall j | 0 <= j < |rest|
            ensures LexLess(ks[0], rest[j])
          {
            assert rest[j] in rest;
            if rest[j] != k {
              var n :| 0 <= n < |ks[1..]| && ks[1..][n] == rest[j];
              assert ks[n + 1] == rest[j];
            }
          }
        }
      }
    }
  }

  lemma {:induction false} SortedKeysKeep(fields: seq<Field>)
    ensures forall k :: k in SortedKeys(fields) <==> HasKey(fields, k)
    ensures DistinctKeys(fields) ==> LexSorted(SortedKeys(fields))
  {
    hide LexLess;
    if fields != [] {
      SortedKeysKeep(fields[1..]);
      InsertKeyKeeps(fields[0].key, SortedKeys(fields[1..]));
      forall k
        ensures HasKey(fields, k) <==> k == fields[0].key || HasKey(fields[1..], k)
      {
        if HasKey(fields[1..], k) {
          var i :| 0 <= i < |fields[1..]| && fields[1..][i].key == k;
          assert fields[i + 1].key == k;
        }
        if HasKey(fields, k) && k != fields[0].key {
          var i :| 0 <= i < |fields| && fields[i].key == k;
          assert fields[1..][i - 1].key == k;
        }
      }
      if DistinctKeys(fields) {
        assert DistinctKeys(fields[1..]);
        assert !HasKey(fields[1..], fields[0].key);
      }
    }
  }

  function ValueOf(fields: seq<Field>, k: string): Json
    requires HasKey(fields, k)
  {
    if fields[0].key == k then fields[0].value
    else
      assert HasKey(fields[1..], k) by {
        var i :| 0 <= i < |fields| && fields[i].key == k;
        assert fields[1..][i - 1].key == k;
      }
      ValueOf(fields[1..], k)
  }

  lemma {:induction false} ValueOfIs(fields: seq<Field>, k: string, v: Json)
    requires HasKey(fields, k) && DistinctKeys(fields)
    ensures Field(k, v) in fields <==> v == ValueOf(fields, k)
  {
    assert fields == [fields[0]] + fields[1..];
    if fields[0].key == k {
      assert forall i :: 0 <= i < |fields[1..]| ==> fields[1..][i].key != k;
    } else {
      var i :| 0 <= i < |fields| && fields[i].key == k;
      assert fields[1..][i - 1].key == k;
      ValueOfIs(fields[1..], k, v);
    }
  }

  /** `out[k] = v`: array indices stand first, by number, other keys in the order
      they came; assigning "__proto__" makes no property. */
  function SetProperty(out: seq<Field>, f: Field): seq<Field> {
    if f.key == PROTO then out
    else if IsIndex(f.key) then InsertField(f, out)
    else out + [f]
  }

  /** The object the replacer returns for one that has not been seen: its fields
      but "__proto__", in the fixed order -- which fixes the result. */
  method SortedReplacer(fields: seq<Field>) returns (out: seq<Field>)
    requires DistinctKeys(fields)
    ensures Ordered(out) && forall g :: g in out <==> g in fields && g.key != PROTO
  {
    hide LexLess, KeyBefore, IsIndex;
    var keys := SortedKeys(fields);
    SortedKeysKeep(fields);
    out := [];
    for n := 0 to |keys|
      invariant Ordered(out)
      invariant forall g :: g in out <==> g in fields && g.key != PROTO && g.key in keys[..n]
    {
      assert keys[n] in keys;
      var f := Field(keys[n], ValueOf(fields, keys[n]));
      ReplacerStep(fields, keys, n, out, f);
      out := SetProperty(out, f);
    }
    assert keys[..|keys|] == keys;
    forall g | g in fields
      ensures g.key in keys
    {
      var i :| 0 <= i < |fields| && fields[i] == g;
      assert HasKey(fields, g.key);
    }
  }

  lemma ReplacerStep(fields: seq<Field>, keys: seq<string>, n: nat, out: seq<Field>, f: Field)
    requires DistinctKeys(fields) && LexSorted(keys) && n < |keys| && HasKey(fields, keys[n])
    requires f == Field(keys[n], ValueOf(fields, keys[n])) && Ordered(out)
    requires forall g :: g in out <==> g in fields && g.key != PROTO && g.key in keys[..n]
    ensures Ordered(SetProperty(out, f))
    ensures forall g :: g in SetProperty(out, f) <==> g in fields && g.key != PROTO && g.key in keys[..n + 1]
  {
    assert keys[..n + 1] == keys[..n] + [keys[n]];
    forall i | 0 <= i < |out|
      ensures out[i].key != f.key && LexLess(out[i].key, f.key)
    {
      assert out[i] in out;
      var m :| 0 <= m < n && keys[..n][m] == out[i].key;
      assert LexLess(keys[m], keys[n]);
      LexOrder(f.key, f.key, f.key);
    }
    forall g
      ensures g in SetProperty(out, f) <==> g in fields && g.key != PROTO && g.key in keys[..n + 1]
    {
      InsertMembers(f, out, g);
      ValueOfIs(fields, keys[n], g.value);
      assert g == Field(g.key, g.value);
    }
    hide LexLess, IsIndex;
    if IsIndex(f.key) {
      InsertOrdered(f, out);
    }
  }

  /** Visiting the returned object's fields gives the canonical object. */
  lemma ReplacedThenVisited(fields: seq<Field>, out: seq<Field>)
    requires DistinctKeys(fields)
    requires Ordered(out) && forall g :: g in out <==> g in fields && g.key != PROTO
    ensures Canonical(Obj(fields)) ==
            Obj(seq(|out|, i requires 0 <= i < |out| => Field(out[i].key, Canonical(out[i].value))))
  {
    hide Canonical, KeyBefore;
    var visited := seq(|out|, i requires 0 <= i < |out| => Field(out[i].key, Canonical(out[i].value)));
    CanonicalOrdered(fields);
    forall g
      ensures g in visited <==> g in CanonicalFields(fields)
    {
      CanonicalMembers(fields, g);
      if g in visited {
        var i :| 0 <= i < |visited| && visited[i] == g;
        assert out[i] in out;
        var n :| 0 <= n < |fields| && fields[n] == out[i];
      }
      if g in CanonicalFields(fields) {
        var n :| 0 <= n < |fields| && fields[n].key == g.key != PROTO && Canonical(fields[n].value) == g.value;
        assert fields[n] in out;
        var i :| 0 <= i < |out| && out[i] == fields[n];
        assert visited[i] == g;
      }
    }
    OrderedUnique(visited, CanonicalFields(fields));
    CanonicalOfObject(fields);
  }

  lemma CanonicalOfObject(fields: seq<Field>)
    ensures Canonical(Obj(fields)) == Obj(CanonicalFields(fields))
  {}
}
