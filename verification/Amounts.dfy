/** The decimal printers of `amount-display.ts`, `arch-tx-summary.ts` and
    `ConnectedSiteRow.tsx`, and the parser of ARCH amounts. */
module Amounts {
  import opened Options
  import opened Strings
  import opened Decimals

  const MAX_DECIMALS := 36
  const LAMPORTS_PER_ARCH := 1_000_000_000

  function BigIntString(n: int): string {
    if n < 0 then "-" + Digits(-n) else Digits(n)
  }

  function WithFraction(whole: string, fraction: string): string {
    if fraction == "" then whole else whole + "." + fraction
  }

  /** `formatBaseUnits`; `None` when it throws. */
  function FormatBaseUnits(amount: int, decimals: int): Option<string> {
    if decimals < 0 || decimals > MAX_DECIMALS then None
    else
      var sign := if amount < 0 then "-" else "";
      var abs := if amount < 0 then -amount else amount;
      var whole := GroupThousands(BigIntString(Whole(abs, decimals)));
      var fraction := if decimals == 0 then "" else TrimZeros(PadStart(BigIntString(Part(abs, decimals)), decimals));
      Some(WithFraction(sign + whole, fraction))
  }

  /** `formatRawAmountWithDecimals`, given the integer its text stands for. */
  function FormatRawAmount(n: int, decimals: int): string {
    if decimals <= 0 then BigIntString(n)
    else
      var s := PadStart(BigIntString(n), decimals + 1);
      PadLength(BigIntString(n), decimals + 1);
      WithFraction(s[..|s| - decimals], TrimZeros(s[|s| - decimals..]))
  }

  lemma PadLength(s: string, width: nat)
    ensures |PadStart(s, width)| >= width
  {}

  /** `lamportsToArchString`. */
  function LamportsToArchString(lamports: Option<nat>): string {
    match lamports
    case None => ""
    case Some(n) =>
      var whole, frac := n / LAMPORTS_PER_ARCH, n % LAMPORTS_PER_ARCH;
      if frac == 0 then Digits(whole) else Digits(whole) + "." + TrimZeros(PadStart(Digits(frac), 9))
  }

  datatype ArchAmount = NoCap | Malformed | Lamports(value: nat)

  /** `archStringToLamports`. */
  function ArchStringToLamports(s: string): ArchAmount {
    var trimmed := Trim(s);
    if trimmed == "" then NoCap
    else
      var dot := IndexOf(trimmed, '.');
      var whole := if dot == -1 then trimmed else trimmed[..dot];
      var frac := if dot == -1 then "" else trimmed[dot + 1..];
      if whole == "" || !AllDigits(whole) || !AllDigits(frac) || |frac| > 9 then Malformed
      else
        PadEndDigits(frac, 9);
        Lamports(Val(whole) * LAMPORTS_PER_ARCH + Val(PadEnd(frac, 9)))
  }

  lemma PadEndDigits(s: string, width: nat)
    requires AllDigits(s)
    ensures AllDigits(PadEnd(s, width))
  {}

  // ----- The printers agree

  /** `n` at `d` places, without grouping: what all three printers show. */
  function Plain(n: nat, d: nat): string {
    WithFraction(Digits(Whole(n, d)), TrimZeros(Fixed(n, d)))
  }

  lemma FractionIsFixed(n: nat, d: nat)
    requires d >= 1
    ensures PadStart(Digits(Part(n, d)), d) == Fixed(n, d)
  {
    WholeAndPart(n, d);
    PadIsFixed(Part(n, d), d);
    FixedMod(n, d);
  }

  /** The grouped printer without its commas. */
  lemma BaseUnitsIsPlain(amount: int, d: nat)
    requires d <= MAX_DECIMALS
    ensures StripCommas(FormatBaseUnits(amount, d).value) ==
            if amount < 0 then "-" + Plain(-amount, d) else Plain(amount, d)
  {
    hide Digits, Fixed, TrimZeros, Whole, Part, PadStart, StripCommas, GroupThousands, WithFraction;
    var sign := if amount < 0 then "-" else "";
    var abs: nat := if amount < 0 then -amount else amount;
    var whole, fraction := Digits(Whole(abs, d)), TrimZeros(Fixed(abs, d));
    if d > 0 {
      FractionIsFixed(abs, d);
    } else {
      NoFraction(abs);
    }
    assert FormatBaseUnits(amount, d) == Some(WithFraction(sign + GroupThousands(whole), fraction));
    StripShown(sign, whole, fraction);
  }

  lemma NoFraction(n: nat)
    ensures TrimZeros(Fixed(n, 0)) == ""
  {}

  lemma StripShown(sign: string, whole: string, fraction: string)
    requires ',' !in sign && AllDigits(whole) && AllDigits(fraction)
    ensures StripCommas(WithFraction(sign + GroupThousands(whole), fraction)) == sign + WithFraction(whole, fraction)
  {
    StripGroupFrom(whole, 0);
    assert whole[0..] == whole;
    hide StripCommas;
    StripConcat(sign, GroupThousands(whole));
    StripNothing(sign);
    assert ',' !in "." + fraction;
    StripConcat(sign + GroupThousands(whole), "." + fraction);
    StripNothing("." + fraction);
    assert (sign + GroupThousands(whole)) + ("." + fraction) == sign + GroupThousands(whole) + "." + fraction;
    assert sign + whole + ("." + fraction) == sign + (whole + "." + fraction);
  }

  lemma RawIsPlain(n: nat, d: nat)
    ensures FormatRawAmount(n, d) == Plain(n, d)
  {
    if d == 0 {
      assert Whole(n, 0) == n;
    } else {
      hide Digits, Fixed, Whole, TrimZeros;
      PadSplits(n, d);
      var s := PadStart(Digits(n), d + 1);
      assert s[..|s| - d] == Digits(Whole(n, d));
      assert s[|s| - d..] == Fixed(n, d);
    }
  }

  lemma ArchIsPlain(n: nat)
    ensures LamportsToArchString(Some(n)) == Plain(n, 9)
  {
    Billion();
    assert Whole(n, 9) == n / LAMPORTS_PER_ARCH && Part(n, 9) == n % LAMPORTS_PER_ARCH;
    FractionIsFixed(n, 9);
    FractionVanishes(n, 9);
  }

  lemma FractionVanishes(n: nat, d: nat)
    ensures TrimZeros(Fixed(n, d)) == "" <==> Part(n, d) == 0
  {
    hide Part;
    ValFixed(n, d);
    var f := Fixed(n, d);
    if TrimZeros(f) == "" {
      assert f == Zeros(d);
      ValZeros(d);
    }
    if Part(n, d) == 0 {
      FixedMod(n, d);
      FixedZero(d);
    }
  }

  lemma Billion()
    ensures Pow10(9) == LAMPORTS_PER_ARCH
  {
    assert Pow10(3) == 1000;
    assert Pow10(6) == 1000 * Pow10(3);
    assert Pow10(9) == 1000 * Pow10(6);
  }

  lemma {:induction false} FixedZero(d: nat)
    ensures TrimZeros(Fixed(0, d)) == ""
  {
    if d > 0 {
      FixedZero(d - 1);
      assert Fixed(0, d) == Fixed(0, d - 1) + "0";
      TrimZero(Fixed(0, d - 1));
      hide Fixed, TrimZeros;
    }
  }

  lemma TrimZero(s: string)
    ensures TrimZeros(s + "0") == TrimZeros(s)
  {
    assert (s + "0")[..|s|] == s;
  }

  /** The three printers show the same number for every non-negative amount. */
  lemma PrintersAgree(n: nat, d: nat)
    requires d <= MAX_DECIMALS
    ensures StripCommas(FormatBaseUnits(n, d).value) == FormatRawAmount(n, d)
    ensures d == 9 ==> LamportsToArchString(Some(n)) == FormatRawAmount(n, d)
  {
    BaseUnitsIsPlain(n, d);
    RawIsPlain(n, d);
    ArchIsPlain(n);
  }

  /** For a negative amount the ungrouped printer pads its minus sign like a digit:
      it agrees with the other exactly when there are no decimals or the amount has
      more digits than decimals. */
  lemma NegativeAmountsAgree(n: int, d: nat)
    requires d <= MAX_DECIMALS && n < 0
    ensures StripCommas(FormatBaseUnits(n, d).value) == FormatRawAmount(n, d) <==> d == 0 || -n >= Pow10(d)
  {
    var m: nat := -n;
    assert Whole(m, 0) == m;
    hide Digits, Fixed, TrimZeros, Whole, Part, Pow10, StripCommas, FormatBaseUnits;
    BaseUnitsIsPlain(n, d);
    if d == 0 {
      NoFraction(m);
    } else if m >= Pow10(d) {
      LongNegative(m, d);
    } else {
      ShortNegative(m, d);
    }
  }

  /** Minus five hundredths comes out as "0.-5" from one printer and "-0.05" from the
      other. */
  lemma NegativeAmountExample()
    ensures FormatRawAmount(-5, 2) == "0.-5" && FormatBaseUnits(-5, 2) == Some("-0.05")
  {
    assert Digits(5) == "5" && Digits(0) == "0" && "-" + "5" == "-5" && BigIntString(-5) == "-5";
    assert Zeros(1) == "0" && "0" + "-5" == "0-5" && "0" + "5" == "05";
    assert "0-5"[..1] == "0" && "0-5"[1..] == "-5";
    assert TrimZeros("-5") == "-5" && TrimZeros("05") == "05";
    assert Pow10(1) == 10 && Pow10(2) == 100;
    assert Whole(5, 2) == 0 && Part(5, 2) == 5;
    assert GroupThousands("0") == "0" by { GroupsOfThree("0"); }
    hide Digits, GroupThousands, TrimZeros, Whole, Part, Pow10;
    assert PadStart("-5", 3) == "0-5" && PadStart("5", 2) == "05";
    assert "0" + "." + "-5" == "0.-5" && "-" + "0" + "." + "05" == "-0.05";
  }

  /** Amounts as they are shown. */
  lemma ShownAmounts()
    ensures FormatBaseUnits(123_456_700, 4) == Some("12,345.67")
    ensures FormatBaseUnits(1, -1) == None && FormatBaseUnits(1, 37) == None && FormatBaseUnits(0, 36).Some?
    ensures LamportsToArchString(None) == "" && LamportsToArchString(Some(1_000_000_005)) == "1.000000005"
  {
    ShownParts();
    GroupedText();
    assert PadStart("6700", 4) == "6700";
    hide Digits, GroupThousands, TrimZeros, Whole, Part, PadStart;
    assert "" + "12,345" == "12,345" && "12,345" + "." + "67" == "12,345.67";
    assert "1" + "." + "000000005" == "1.000000005";
  }

  lemma ShownParts()
    ensures Digits(12345) == "12345" && Digits(6700) == "6700" && TrimZeros("6700") == "67"
    ensures Whole(123_456_700, 4) == 12345 && Part(123_456_700, 4) == 6700
    ensures Digits(1) == "1" && Digits(5) == "5"
    ensures PadStart("5", 9) == "000000005" && TrimZeros("000000005") == "000000005"
  {
    ShortDigits();
    OneAndNine();
    ShownDivision();
    hide *;
  }

  lemma ShortDigits()
    ensures Digits(12345) == "12345" && Digits(6700) == "6700" && TrimZeros("6700") == "67"
  {}

  lemma OneAndNine()
    ensures Digits(1) == "1" && Digits(5) == "5"
    ensures PadStart("5", 9) == "000000005" && TrimZeros("000000005") == "000000005"
  {
    assert Zeros(8) == "00000000" && "00000000" + "5" == "000000005";
  }

  lemma ShownDivision()
    ensures Whole(123_456_700, 4) == 12345 && Part(123_456_700, 4) == 6700
  {
    assert Pow10(4) == 10000;
  }

  lemma GroupedText()
    ensures GroupThousands("12345") == "12,345"
  {}

  lemma LongEnough(digits: string, d: nat)
    requires |digits| > d
    ensures PadStart(digits, d + 1) == digits && PadStart("-" + digits, d + 1) == "-" + digits
  {}

  lemma MinusWithFraction(whole: string, fraction: string)
    ensures WithFraction("-" + whole, fraction) == "-" + WithFraction(whole, fraction)
  {
    assert "-" + whole + "." + fraction == "-" + (whole + "." + fraction);
  }

  lemma LongNegative(m: int, d: nat)
    requires d >= 1 && m > 0 && m >= Pow10(d)
    ensures FormatRawAmount(-m, d) == "-" + Plain(m, d)
  {
    hide Digits, Fixed, TrimZeros, Whole, Part, Pow10;
    DigitCount(m, d);
    PadSplits(m, d);
    hide WithFraction, PadStart;
    var whole, fraction := Digits(Whole(m, d)), Fixed(m, d);
    LongEnough(Digits(m), d);
    var s := "-" + Digits(m);
    assert s == ("-" + whole) + fraction;
    assert s[..|s| - d] == "-" + whole && s[|s| - d..] == fraction;
    MinusWithFraction(whole, TrimZeros(fraction));
  }

  lemma ShortNegative(m: int, d: nat)
    requires d >= 1 && 0 < m < Pow10(d)
    ensures FormatRawAmount(-m, d) != "-" + Plain(m, d)
  {
    DigitCount(m, d);
    DivBelow(m, d);
    assert Digits(0) == "0";
    hide Digits, Fixed, TrimZeros, Whole, Part, Pow10;
    var s := PadStart("-" + Digits(m), d + 1);
    assert |s| == d + 1;
    var raw, shown := FormatRawAmount(-m, d), "-" + Plain(m, d);
    assert raw == WithFraction(s[..1], TrimZeros(s[1..]));
    assert |shown| >= 2 && shown[1] == '0';
    assert |raw| > 1 ==> raw[1] == '.';
  }

  // ----- Reading back

  /** The text before the point and the text after it. */
  function Halves(s: string): (string, string) {
    var dot := IndexOf(s, '.');
    if dot == -1 then (s, "") else (s[..dot], s[dot + 1..])
  }

  /** The amount a printed text stands for at `d` places. */
  function Read(s: string, d: nat): Option<nat> {
    var (whole, frac) := Halves(s);
    if !AllDigits(whole) || !AllDigits(frac) then None
    else
      PadEndDigits(frac, d);
      Some(Scaled(Val(whole), d) + Val(PadEnd(frac, d)))
  }

  lemma DotSplits(whole: string, fraction: string)
    requires AllDigits(whole) && AllDigits(fraction)
    ensures IndexOf(whole, '.') == -1
    ensures IndexOf(whole + "." + fraction, '.') == |whole|
    ensures (whole + "." + fraction)[..|whole|] == whole && (whole + "." + fraction)[|whole| + 1..] == fraction
  {
    hide IndexOf;
    var s := whole + "." + fraction;
    assert s[|whole|] == '.';
    forall i | 0 <= i < |whole|
      ensures s[i] != '.'
    {
      assert s[i] == whole[i];
    }
  }

  lemma HalvesOfShown(whole: string, fraction: string)
    requires AllDigits(whole) && AllDigits(fraction)
    ensures Halves(WithFraction(whole, fraction)) == (whole, fraction)
  {
    DotSplits(whole, fraction);
    hide IndexOf, AllDigits;
  }

  lemma ReadShown(whole: string, fraction: string, d: nat)
    requires AllDigits(whole) && AllDigits(fraction)
    ensures AllDigits(PadEnd(fraction, d))
    ensures Read(WithFraction(whole, fraction), d) == Some(Scaled(Val(whole), d) + Val(PadEnd(fraction, d)))
  {
    HalvesOfShown(whole, fraction);
    ReadHalves(WithFraction(whole, fraction), whole, fraction, d);
    hide *;
  }

  lemma ReadHalves(s: string, whole: string, fraction: string, d: nat)
    requires Halves(s) == (whole, fraction) && AllDigits(whole) && AllDigits(fraction)
    ensures AllDigits(PadEnd(fraction, d)) && Read(s, d) == Some(Scaled(Val(whole), d) + Val(PadEnd(fraction, d)))
  {
    PadEndDigits(fraction, d);
    hide Val, PadEnd, Scaled, AllDigits, Halves, Pow10;
  }

  lemma ReadPlain(n: nat, d: nat)
    ensures Read(Plain(n, d), d) == Some(n)
  {
    hide Digits, Fixed, TrimZeros, Whole, Part, Val, Scaled, PadEnd, Read, WithFraction, Pow10;
    ReadShown(Digits(Whole(n, d)), TrimZeros(Fixed(n, d)), d);
    PadEndRestores(Fixed(n, d));
    ValDigits(Whole(n, d));
    ValFixed(n, d);
    WholeAndPart(n, d);
  }

  function Abs(n: int): nat { if n < 0 then -n else n }

  /** No two amounts are shown alike. */
  lemma FormatBaseUnitsInjective(a: int, b: int, d: nat)
    requires d <= MAX_DECIMALS && FormatBaseUnits(a, d) == FormatBaseUnits(b, d)
    ensures a == b
  {
    hide Plain, Read, FormatBaseUnits, StripCommas;
    BaseUnitsIsPlain(a, d);
    BaseUnitsIsPlain(b, d);
    StartsWithDigit(Abs(a), d);
    StartsWithDigit(Abs(b), d);
    ReadPlain(Abs(a), d);
    ReadPlain(Abs(b), d);
    var pa, pb := Plain(Abs(a), d), Plain(Abs(b), d);
    var sa, sb := if a < 0 then "-" + pa else pa, if b < 0 then "-" + pb else pb;
    assert sa == sb;
    assert pa == (if a < 0 then sa[1..] else sa) && pb == (if b < 0 then sb[1..] else sb);
  }

  lemma StartsWithDigit(n: nat, d: nat)
    ensures Plain(n, d) != "" && IsDigit(Plain(n, d)[0]) && IsDigit(Plain(n, d)[|Plain(n, d)| - 1])
  {
    hide Digits, Fixed, Whole;
    var fraction := TrimZeros(Fixed(n, d));
    assert fraction != "" ==> IsDigit(Fixed(n, d)[|fraction| - 1]);
  }

  lemma ArchOfShown(whole: string, fraction: string)
    requires whole != "" && AllDigits(whole) && AllDigits(fraction) && |fraction| <= 9
    ensures AllDigits(PadEnd(fraction, 9))
    ensures ArchStringToLamports(WithFraction(whole, fraction)) ==
            Lamports(Val(whole) * LAMPORTS_PER_ARCH + Val(PadEnd(fraction, 9)))
  {
    hide Val, IndexOf, PadEnd, Trim;
    PadEndDigits(fraction, 9);
    DotSplits(whole, fraction);
    TrimIsIdentity(WithFraction(whole, fraction));
  }

  /** What may be typed as an ARCH amount: digits, and after a point up to nine more. */
  ghost predicate Typed(text: string, whole: string, frac: string) {
    whole != "" && AllDigits(whole) && AllDigits(frac) && |frac| <= 9
    && (text == whole + "." + frac || (text == whole && frac == ""))
  }

  /** White space around it is ignored, nothing means no cap, and all else is refused. */
  lemma ArchAccepts(s: string)
    ensures ArchStringToLamports(s) == NoCap <==> Trim(s) == ""
    ensures ArchStringToLamports(s).Lamports? <==> exists whole, frac :: Typed(Trim(s), whole, frac)
    ensures forall whole, frac :: Typed(Trim(s), whole, frac) ==>
              AllDigits(PadEnd(frac, 9))
              && ArchStringToLamports(s) == Lamports(Val(whole) * 1_000_000_000 + Val(PadEnd(frac, 9)))
  {
    forall whole, frac | Typed(Trim(s), whole, frac)
      ensures AllDigits(PadEnd(frac, 9))
      ensures ArchStringToLamports(s) == Lamports(Val(whole) * 1_000_000_000 + Val(PadEnd(frac, 9)))
    {
      TypedIsAccepted(s, whole, frac);
    }
    if ArchStringToLamports(s).Lamports? {
      AcceptedIsTyped(s);
    }
    hide Val, IndexOf, PadEnd, Trim, AllDigits, Typed;
  }

  lemma TypedIsAccepted(s: string, whole: string, frac: string)
    requires Typed(Trim(s), whole, frac)
    ensures AllDigits(PadEnd(frac, 9))
    ensures ArchStringToLamports(s) == Lamports(Val(whole) * 1_000_000_000 + Val(PadEnd(frac, 9)))
  {
    DotSplits(whole, frac);
    PadEndDigits(frac, 9);
    hide Val, IndexOf, PadEnd, Trim, AllDigits;
  }

  lemma AcceptedIsTyped(s: string)
    requires ArchStringToLamports(s).Lamports?
    ensures exists whole, frac :: Typed(Trim(s), whole, frac)
  {
    hide Val, IndexOf, PadEnd, Trim;
    var text := Trim(s);
    var dot := IndexOf(text, '.');
    if dot == -1 {
      assert Typed(text, text, "");
    } else {
      assert text == text[..dot] + "." + text[dot + 1..];
      assert Typed(text, text[..dot], text[dot + 1..]);
    }
  }

  /** Parsing a printed ARCH amount gives the lamports it was printed from. */
  lemma ArchRoundTrip(n: nat)
    ensures ArchStringToLamports(LamportsToArchString(Some(n))) == Lamports(n)
  {
    hide *;
    ArchIsPlain(n);
    Billion();
    WholeAndPart(n, 9);
    PlainShown(n);
    var whole, fraction := Digits(Whole(n, 9)), TrimZeros(Fixed(n, 9));
    ArchOfShown(whole, fraction);
    PadEndRestores(Fixed(n, 9));
    ValDigits(Whole(n, 9));
    ValFixed(n, 9);
  }

  lemma PlainShown(n: nat)
    ensures Plain(n, 9) == WithFraction(Digits(Whole(n, 9)), TrimZeros(Fixed(n, 9)))
    ensures Scaled(Whole(n, 9), 9) == Whole(n, 9) * LAMPORTS_PER_ARCH
    ensures AllDigits(TrimZeros(Fixed(n, 9))) && |Fixed(n, 9)| == 9
  {
    hide Digits, Whole, Fixed, TrimZeros;
    Billion();
  }
}

/** Decimal numerals: digits, padding, places and groups of three. */
module Decimals {
  predicate IsDigit(c: char) { '0' <= c <= '9' }

  predicate AllDigits(s: string) {
    forall i :: 0 <= i < |s| ==> IsDigit(s[i])
  }

  function DigitChar(v: int): (c: char)
    requires 0 <= v < 10
    ensures IsDigit(c) && DigitOf(c) == v
  {
    ('0' as int + v) as char
  }

  function DigitOf(c: char): int
    requires IsDigit(c)
  {
    c as int - '0' as int
  }

  function Digits(n: nat): (s: string)
    ensures s != "" && AllDigits(s)
  {
    if n < 10 then [DigitChar(n)] else Digits(n / 10) + [DigitChar(n % 10)]
  }

  function Val(s: string): nat
    requires AllDigits(s)
  {
    if s == "" then 0 else 10 * Val(s[..|s| - 1]) + DigitOf(s[|s| - 1])
  }

  function Zeros(n: nat): (s: string)
    ensures |s| == n && AllDigits(s)
    ensures forall i :: 0 <= i < n ==> s[i] == '0'
  {
    seq(n, i => '0')
  }

  function PadStart(s: string, width: nat): string {
    if |s| >= width then s else Zeros(width - |s|) + s
  }

  function PadEnd(s: string, width: nat): string {
    if |s| >= width then s else s + Zeros(width - |s|)
  }

  /** `replace(/0+$/, "")`. */
  function TrimZeros(s: string): (t: string)
    ensures t <= s
    ensures t != "" ==> t[|t| - 1] != '0'
    ensures forall i :: |t| <= i < |s| ==> s[i] == '0'
  {
    if s != "" && s[|s| - 1] == '0' then TrimZeros(s[..|s| - 1]) else s
  }

  function Pow10(d: nat): (p: nat)
    ensures p >= 1
  {
    if d == 0 then 1 else 10 * Pow10(d - 1)
  }

  /** The last `d` digits of `n`. */
  function Fixed(n: nat, d: nat): (s: string)
    ensures |s| == d && AllDigits(s)
  {
    if d == 0 then "" else Fixed(n / 10, d - 1) + [DigitChar(n % 10)]
  }

  // ----- Division

  /** The whole part of `n` at `d` places, and the rest. */
  function Whole(n: nat, d: nat): nat { Quotient(n, Pow10(d)) }

  function Part(n: nat, d: nat): nat { Remainder(n, Pow10(d)) }

  function Quotient(n: nat, p: nat): nat
    requires p > 0
  {
    n / p
  }

  function Remainder(n: nat, p: nat): nat
    requires p > 0
  {
    n % p
  }

  function Scaled(v: nat, d: nat): nat { v * Pow10(d) }

  lemma WholeAndPart(n: nat, d: nat)
    ensures n == Scaled(Whole(n, d), d) + Part(n, d) && Part(n, d) < Pow10(d)
  {}

  lemma Distribute(d: int, a: int, b: int)
    ensures d * (a - b) == d * a - d * b
  {}

  lemma AtLeastOnce(d: int, k: int)
    requires d > 0 && k >= 1
    ensures d * k >= d
  {}

  lemma DivUnique(n: int, d: int, q: int, r: int)
    requires d > 0 && n == d * q + r && 0 <= r < d
    ensures n / d == q && n % d == r
  {
    var a := n / d;
    Distribute(d, a, q);
    Distribute(d, q, a);
    if a > q {
      AtLeastOnce(d, a - q);
    } else if a < q {
      AtLeastOnce(d, q - a);
    }
  }

  lemma DivTen(n: nat, d: nat)
    ensures Whole(n, d + 1) == Whole(n / 10, d)
    ensures Part(n, d + 1) == 10 * Part(n / 10, d) + n % 10
  {
    var p := Pow10(d);
    var q, r := n / 10, n % 10;
    var a, b := q / p, q % p;
    assert q == p * a + b;
    assert n == 10 * q + r;
    assert 10 * (p * a) == (10 * p) * a;
    DivUnique(n, 10 * p, a, 10 * b + r);
  }

  lemma DivBelow(n: nat, d: nat)
    ensures n < Pow10(d) <==> Whole(n, d) == 0
    ensures n < Pow10(d) ==> Part(n, d) == n
  {
    if n < Pow10(d) {
      DivUnique(n, Pow10(d), 0, n);
    } else {
      WholeAndPart(n, d);
    }
  }

  // ----- Digits

  lemma {:induction false} ValDigits(n: nat)
    ensures Val(Digits(n)) == n
  {
    if n >= 10 {
      ValDigits(n / 10);
      assert Digits(n)[..|Digits(n)| - 1] == Digits(n / 10);
    } else {
      assert [DigitChar(n)][..0] == "";
    }
  }

  lemma ScaledTen(v: nat, d: nat)
    ensures Scaled(v, d + 1) == 10 * Scaled(v, d)
  {
    assert Pow10(d + 1) == 10 * Pow10(d);
    assert v * (10 * Pow10(d)) == 10 * (v * Pow10(d));
  }

  lemma {:induction false} ValConcat(a: string, b: string)
    requires AllDigits(a) && AllDigits(b)
    ensures AllDigits(a + b) && Val(a + b) == Scaled(Val(a), |b|) + Val(b)
  {
    if b == "" {
      assert a + b == a;
    } else {
      var c := b[..|b| - 1];
      ValConcat(a, c);
      ScaledTen(Val(a), |c|);
      hide Scaled;
      assert (a + b)[..|a + b| - 1] == a + c;
    }
  }

  lemma {:induction false} ValZeros(n: nat)
    ensures Val(Zeros(n)) == 0
  {
    if n > 0 {
      assert Zeros(n)[..n - 1] == Zeros(n - 1);
      ValZeros(n - 1);
    }
  }

  lemma {:induction false} ValFixed(n: nat, d: nat)
    ensures Val(Fixed(n, d)) == Part(n, d)
  {
    if d > 0 {
      ValFixed(n / 10, d - 1);
      DivTen(n, d - 1);
      assert Fixed(n, d)[..d - 1] == Fixed(n / 10, d - 1);
    }
  }

  lemma LastDigit(q: nat, r: nat)
    requires r < 10
    ensures (10 * q + r) / 10 == q && (10 * q + r) % 10 == r
  {}

  lemma {:induction false} FixedMod(n: nat, d: nat)
    ensures Fixed(Part(n, d), d) == Fixed(n, d)
  {
    if d > 0 {
      DivTen(n, d - 1);
      FixedMod(n / 10, d - 1);
      hide Part, Pow10;
      LastDigit(Part(n / 10, d - 1), n % 10);
    }
  }

  lemma PadStep(n: nat, w: nat)
    requires w >= 1
    ensures PadStart(Digits(n), w + 1) == PadStart(Digits(n / 10), w) + [DigitChar(n % 10)]
  {
    if n < 10 {
      assert n / 10 == 0 && Digits(0) == "0" && n % 10 == n;
      assert Zeros(w) == Zeros(w - 1) + "0";
      assert Zeros(w + 1 - 1) + [DigitChar(n)] == Zeros(w - 1) + "0" + [DigitChar(n)];
    } else {
      assert |Digits(n)| == |Digits(n / 10)| + 1;
    }
  }

  /** A number padded to more than `d` digits is its whole part followed by exactly
      `d` digits of fraction. */
  lemma {:induction false} PadSplits(n: nat, d: nat)
    ensures PadStart(Digits(n), d + 1) == Digits(Whole(n, d)) + Fixed(n, d)
  {
    if d == 0 {
      assert PadStart(Digits(n), 1) == Digits(n) + "";
      assert Whole(n, 0) == n;
    } else {
      assert Fixed(n, d) == Fixed(n / 10, d - 1) + [DigitChar(n % 10)];
      hide Digits, Fixed, Whole, Part, PadStart, Pow10;
      PadStep(n, d);
      PadSplits(n / 10, d - 1);
      DivTen(n, d - 1);
      assert Digits(Whole(n, d)) + Fixed(n / 10, d - 1) + [DigitChar(n % 10)] ==
             Digits(Whole(n, d)) + (Fixed(n / 10, d - 1) + [DigitChar(n % 10)]);
    }
  }

  lemma {:induction false} PadIsFixed(n: nat, d: nat)
    requires d >= 1 && n < Pow10(d)
    ensures PadStart(Digits(n), d) == Fixed(n, d)
  {
    if d == 1 {
      assert Fixed(n, 1) == Fixed(n / 10, 0) + [DigitChar(n % 10)];
    } else {
      PadStep(n, d - 1);
      assert n / 10 < Pow10(d - 1);
      PadIsFixed(n / 10, d - 1);
    }
  }

  /** A number has at most `d` digits exactly when it is below 10^d. */
  lemma {:induction false} DigitCount(n: nat, d: nat)
    requires d >= 1
    ensures |Digits(n)| <= d <==> n < Pow10(d)
  {
    if d == 1 {
      assert Pow10(1) == 10 * Pow10(0);
    } else if n >= 10 {
      DigitCount(n / 10, d - 1);
      assert n / 10 < Pow10(d - 1) <==> n < 10 * Pow10(d - 1);
    } else {
      assert Pow10(d) == 10 * Pow10(d - 1);
    }
  }

  lemma PadEndRestores(s: string)
    ensures PadEnd(TrimZeros(s), |s|) == s
  {}

  // ----- Commas

  /** `replace(/\B(?=(\d{3})+(?!\d))/g, ",")` on digits: a comma before every
      character but the first that has a multiple of three characters from it on. */
  function GroupFrom(s: string, i: nat): string
    requires i <= |s|
    decreases |s| - i
  {
    if i == |s| then "" else CommaAt(|s|, i) + [s[i]] + GroupFrom(s, i + 1)
  }

  function CommaAt(n: nat, i: nat): string {
    if i > 0 && (n - i) % 3 == 0 then "," else ""
  }

  function GroupThousands(s: string): string {
    GroupFrom(s, 0)
  }

  function StripCommas(s: string): string {
    if s == "" then "" else (if s[0] == ',' then "" else [s[0]]) + StripCommas(s[1..])
  }

  lemma {:induction false} StripConcat(a: string, b: string)
    ensures StripCommas(a + b) == StripCommas(a) + StripCommas(b)
  {
    if a == "" {
      assert a + b == b;
    } else {
      assert (a + b)[1..] == a[1..] + b;
      StripConcat(a[1..], b);
    }
  }

  lemma {:induction false} StripNothing(s: string)
    requires ',' !in s
    ensures StripCommas(s) == s
  {
    if s != "" {
      StripNothing(s[1..]);
    }
  }

  lemma StripOne(comma: string, c: char, rest: string)
    requires (comma == "" || comma == ",") && c != ','
    ensures StripCommas(comma + [c] + rest) == [c] + StripCommas(rest)
  {
    StripConcat(comma + [c], rest);
    StripConcat(comma, [c]);
    StripNothing([c]);
    assert StripCommas(comma) == "";
  }

  lemma {:induction false} StripGroupFrom(s: string, i: nat)
    requires i <= |s| && AllDigits(s)
    ensures StripCommas(GroupFrom(s, i)) == s[i..]
    decreases |s| - i
  {
    if i < |s| {
      StripGroupFrom(s, i + 1);
      var comma := CommaAt(|s|, i);
      assert GroupFrom(s, i) == comma + [s[i]] + GroupFrom(s, i + 1);
      hide GroupFrom;
      StripOne(comma, s[i], GroupFrom(s, i + 1));
      assert s[i..] == [s[i]] + s[i + 1..];
    }
  }

  /** The commas part the digits into threes, counted from the right. */
  lemma GroupsOfThree(s: string)
    ensures |s| <= 3 ==> GroupThousands(s) == s
    ensures |s| > 3 ==> GroupThousands(s) == GroupThousands(s[..|s| - 3]) + "," + s[|s| - 3..]
  {
    if |s| <= 3 {
      NoGroups(s, 0);
    } else {
      LastGroup(s, 0);
    }
  }

  lemma {:induction false} NoGroups(s: string, i: nat)
    requires i <= |s| && (i == 0 ==> |s| <= 3) && (i > 0 ==> |s| - i < 3)
    ensures GroupFrom(s, i) == s[i..]
    decreases |s| - i
  {
    if i < |s| {
      NoGroups(s, i + 1);
      assert s[i..] == [s[i]] + s[i + 1..];
    }
  }

  lemma GroupStep(s: string, i: nat)
    requires i < |s|
    ensures GroupFrom(s, i) == CommaAt(|s|, i) + [s[i]] + GroupFrom(s, i + 1)
  {}

  lemma SameComma(n: nat, i: nat)
    requires n > 3
    ensures CommaAt(n - 3, i) == CommaAt(n, i) && CommaAt(n, n - 3) == ","
  {}

  lemma FirstOfLast(s: string)
    requires |s| > 3
    ensures GroupFrom(s, |s| - 3) == "," + s[|s| - 3..]
  {
    var i := |s| - 3;
    GroupStep(s, i);
    SameComma(|s|, i);
    NoGroups(s, i + 1);
    hide *;
    HeadThenTail(",", s, i);
  }

  lemma HeadThenTail(p: string, s: string, i: nat)
    requires i < |s|
    ensures p + [s[i]] + s[i + 1..] == p + s[i..]
  {}

  lemma GroupEnd(s: string)
    ensures GroupFrom(s, |s|) == ""
  {}

  lemma {:induction false} LastGroup(s: string, i: nat)
    requires |s| > 3 && i <= |s| - 3
    ensures GroupFrom(s, i) == GroupFrom(s[..|s| - 3], i) + "," + s[|s| - 3..]
    decreases |s| - i
  {
    hide GroupFrom, CommaAt;
    var front := s[..|s| - 3];
    if i == |s| - 3 {
      FirstOfLast(s);
      GroupEnd(front);
    } else {
      LastGroup(s, i + 1);
      GroupStep(s, i);
      GroupStep(front, i);
      SameComma(|s|, i);
      assert front[i] == s[i];
    }
  }
}
