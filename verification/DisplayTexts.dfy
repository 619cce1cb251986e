/** What the hashed text looks like: where each key of an object stands, how strings are
    escaped, and texts written out.  The Hub computes the same text from its own copy of
    the code, so that it is one text for one display is not enough. */
module DisplayTexts {
  import opened Decimals
  import opened CanonicalJson

  // ----- Where the keys stand

  /** `s` is the canonical numeral of `n`, and `n` is an array index. */
  ghost predicate Numeral(s: string, n: nat) {
    s == Digits(n) && n < 4_294_967_295
  }

  ghost predicate ArrayIndex(s: string) {
    exists n :: Numeral(s, n)
  }

  /** At `k` comes the first difference: there `a` ends or has the smaller code unit. */
  ghost predicate SmallerAt(a: string, b: string, k: nat) {
    k <= |a| && k < |b| && a[..k] == b[..k] && (k == |a| || a[k] < b[k])
  }

  lemma {:induction false} LexIsSmaller(a: string, b: string, k: nat)
    requires SmallerAt(a, b, k)
    ensures LexLess(a, b)
    decreases k
  {
    if k > 0 {
      assert a[0] == a[..k][0] == b[..k][0] == b[0];
      assert a[1..][..k - 1] == a[..k][1..] && b[1..][..k - 1] == b[..k][1..];
      LexIsSmaller(a[1..], b[1..], k - 1);
    }
  }

  lemma {:induction false} LexExtends(a: string, b: string, x: char, y: char)
    requires |a| == |b| && (LexLess(a, b) || (a == b && x < y))
    ensures LexLess(a + [x], b + [y])
  {
    if a != "" {
      assert (a + [x])[1..] == a[1..] + [x] && (b + [y])[1..] == b[1..] + [y];
      assert a == [a[0]] + a[1..] && b == [b[0]] + b[1..];
      if a[0] == b[0] {
        LexExtends(a[1..], b[1..], x, y);
      }
    }
  }

  /** Of two numerals the smaller number's is shorter, or comes first. */
  lemma {:induction false} NumeralsInOrder(n: nat, m: nat)
    requires n < m
    ensures |Digits(n)| < |Digits(m)| || (|Digits(n)| == |Digits(m)| && LexLess(Digits(n), Digits(m)))
  {
    if m >= 10 {
      if n >= 10 {
        if n / 10 < m / 10 {
          NumeralsInOrder(n / 10, m / 10);
        }
        if |Digits(n / 10)| == |Digits(m / 10)| {
          LexExtends(Digits(n / 10), Digits(m / 10), DigitChar(n % 10), DigitChar(m % 10));
        }
      }
    } else {
      LexExtends("", "", DigitChar(n), DigitChar(m));
      assert "" + [DigitChar(n)] == Digits(n) && "" + [DigitChar(m)] == Digits(m);
    }
  }

  lemma {:induction false} NumeralShape(n: nat)
    ensures Digits(n)[0] != '0' || n == 0
  {
    if n >= 10 {
      NumeralShape(n / 10);
    }
  }

  lemma {:induction false} NumeralOfVal(s: string)
    requires s != "" && AllDigits(s) && (s[0] != '0' || s == "0")
    ensures Digits(Val(s)) == s && (s != "0" ==> Val(s) > 0)
  {
    var front, last := s[..|s| - 1], s[|s| - 1];
    assert DigitChar(DigitOf(last)) == last;
    if front != "" {
      NumeralOfVal(front);
      assert front != "0" && s == front + [last];
      assert Val(s) / 10 == Val(front) && Val(s) % 10 == DigitOf(last);
    } else {
      assert s == [last] && Val(front) == 0;
    }
  }

  lemma IndexIsNumeral(s: string)
    ensures IsIndex(s) <==> ArrayIndex(s)
  {
    if IsIndex(s) {
      NumeralOfVal(s);
      assert Numeral(s, Val(s));
    }
    if ArrayIndex(s) {
      var n :| Numeral(s, n);
      NumeralShape(n);
      ValDigits(n);
      assert n == 0 ==> s == "0";
    }
  }

  /** `a` stands before `b`: array indices by number and before the other keys, and those
      by their first difference. */
  ghost predicate StandsBefore(a: string, b: string) {
    || (exists n, m :: Numeral(a, n) && Numeral(b, m) && n < m)
    || (ArrayIndex(a) && !ArrayIndex(b))
    || (!ArrayIndex(a) && !ArrayIndex(b) && exists k :: SmallerAt(a, b, k))
  }

  lemma StandsBeforeIs(a: string, b: string)
    requires StandsBefore(a, b)
    ensures KeyBefore(a, b)
  {
    IndexIsNumeral(a);
    IndexIsNumeral(b);
    hide IsIndex, LexLess;
    if n, m :| Numeral(a, n) && Numeral(b, m) && n < m {
      NumeralsInOrder(n, m);
      assert ArrayIndex(a) && ArrayIndex(b);
    } else if !ArrayIndex(a) {
      var k :| SmallerAt(a, b, k);
      LexIsSmaller(a, b, k);
    }
  }

  lemma OrderedPositions(fs: seq<Field>, i: nat, j: nat)
    requires Ordered(fs) && i < |fs| && j < |fs| && StandsBefore(fs[i].key, fs[j].key)
    ensures i < j
  {
    StandsBeforeIs(fs[i].key, fs[j].key);
    hide StandsBefore, KeyBefore;
    KeyOrder(fs[i].key, fs[j].key, fs[i].key);
  }

  /** So the keys stand in the object that is printed, whatever order they came in. */
  lemma KeyPositions(fields: seq<Field>, i: nat, j: nat)
    requires DistinctKeys(fields)
    ensures var printed := Canonical(Obj(fields)).fields;
            i < |printed| && j < |printed| && StandsBefore(printed[i].key, printed[j].key) ==> i < j
  {
    CanonicalOrdered(fields);
    hide StandsBefore, Ordered;
    var printed := CanonicalFields(fields);
    if i < |printed| && j < |printed| && StandsBefore(printed[i].key, printed[j].key) {
      OrderedPositions(printed, i, j);
    }
  }

  // ----- Texts

  const HEX := "0123456789abcdef"

  /** A string of one character: a short escape, a lower-case code, or itself. */
  lemma StringText(c: char)
    ensures CanonicalText(Str([c])) == "\"" +
      (if c == '"' then "\\\"" else if c == '\\' then "\\\\"
       else if c as int == 8 then "\\b" else if c as int == 9 then "\\t" else if c as int == 10 then "\\n"
       else if c as int == 12 then "\\f" else if c as int == 13 then "\\r"
       else if c as int < 32 then "\\u00" + [HEX[c as int / 16], HEX[c as int % 16]] else [c]) + "\""
  {
    assert [c][1..] == "";
    assert QuoteRest([c]) == EscapeChar(c) + "\"";
    assert forall v :: 0 <= v < 16 ==> HexChar(v) == HEX[v];
  }

  lemma {:induction false} RestsJoin(s: string, t: string)
    ensures QuoteRest(s) != "" && QuoteRest(s + t) == QuoteRest(s)[..|QuoteRest(s)| - 1] + QuoteRest(t)
  {
    hide EscapeChar;
    if s == "" {
      assert s + t == t;
    } else {
      assert (s + t)[1..] == s[1..] + t;
      RestsJoin(s[1..], t);
    }
  }

  /** A longer string is written character by character. */
  lemma StringTexts(s: string, t: string)
    ensures var x, y, z := CanonicalText(Str(s)), CanonicalText(Str(t)), CanonicalText(Str(s + t));
            x != "" && y != "" && z == x[..|x| - 1] + y[1..]
  {
    RestsJoin(s, t);
    hide QuoteRest;
  }

  lemma SortedText()
    ensures CanonicalText(Obj([Field("b", Num("2")), Field("a", Num("1"))])) == "{\"a\":1,\"b\":2}"
  {
    var a, b := Field("a", Num("1")), Field("b", Num("2"));
    assert [b, a][1..] == [a] && [a][1..] == [] && [a, b][1..] == [b] && [b][1..] == [];
    assert LexLess("a", "b") && !IsIndex("a") && !IsIndex("b");
    assert CanonicalFields([a]) == [a];
    assert CanonicalFields([b, a]) == [a] + InsertField(b, []) == [a, b];
    PlainFieldText('a', '1');
    PlainFieldText('b', '2');
    hide PrintField;
    assert "{" + "\"a\":1" + "," + "\"b\":2" + "}" == "{\"a\":1,\"b\":2}";
  }

  lemma PlainFieldText(k: char, v: char)
    requires 'a' <= k <= 'z'
    ensures PrintField(Field([k], Num([v]))) == ['"', k, '"', ':', v]
  {
    StringText(k);
    assert Canonical(Str([k])) == Str([k]);
  }

  /** The other values, and an array's items in their own order. */
  lemma ValueTexts()
    ensures CanonicalText(Null) == "null"
    ensures CanonicalText(Bool(true)) == "true" && CanonicalText(Bool(false)) == "false"
    ensures CanonicalText(Arr([])) == "[]" && CanonicalText(Obj([])) == "{}" && CanonicalText(Str("")) == "\"\""
    ensures CanonicalText(Arr([Num("2"), Num("1")])) == "[2,1]"
  {
    var items := [Num("2"), Num("1")];
    assert items[1..] == [Num("1")] && [Num("1")][1..] == [];
    assert CanonicalItems([Num("1")]) == [Num("1")] && CanonicalItems(items) == [Num("2")] + [Num("1")] == items;
    assert PrintItems([Num("1")]) == ",1]";
  }
}
