/** Hexadecimal and base64 texts of byte strings. */
module ByteText {
  import opened Options
  import opened Strings
  import opened WitnessStack

  // ----- Hexadecimal

  /** The value of a hexadecimal digit of either case, or -1. */
  function HexValue(c: char): (v: int)
    ensures -1 <= v < 16
  {
    if '0' <= c <= '9' then c as int - '0' as int
    else if 'a' <= c <= 'f' then c as int - 'a' as int + 10
    else if 'A' <= c <= 'F' then c as int - 'A' as int + 10
    else -1
  }

  function HexDigit(v: int): (c: char)
    requires 0 <= v < 16
    ensures HexValue(c) == v && !('A' <= c <= 'F')
  {
    if v < 10 then (v + '0' as int) as char else (v - 10 + 'a' as int) as char
  }

  predicate AllHex(s: string) {
    forall i :: 0 <= i < |s| ==> HexValue(s[i]) >= 0
  }

  /** The text after an optional "0x" or "0X". */
  function Clean(s: string): string {
    if "0x" <= s || "0X" <= s then s[2..] else s
  }

  predicate IsHex(s: string) {
    Clean(s) != "" && |Clean(s)| % 2 == 0 && AllHex(Clean(s))
  }

  function BytesToHex(bytes: seq<byte>): (s: string)
    ensures |s| == 2 * |bytes|
  {
    seq(2 * |bytes|, i requires 0 <= i < 2 * |bytes| =>
      HexDigit(if i % 2 == 0 then bytes[i / 2] / 16 else bytes[i / 2] % 16))
  }

  /** `parseInt(c + d, 16)` of two characters, stored in a byte: leading white
      space, a sign and a "0x" prefix are consumed, parsing stops at the first
      character that is no digit, and no digit at all stores 0. */
  function ParsePair(c: char, d: char): byte {
    var v, w := HexValue(c), HexValue(d);
    if IsSpace(c) || c == '+' then if w >= 0 then w else 0
    else if c == '-' then if w >= 0 then (256 - w) % 256 else 0
    else if c == '0' && (d == 'x' || d == 'X') then 0
    else if v < 0 then 0
    else if w < 0 then v
    else 16 * v + w
  }

  function PairsToBytes(s: string): (bytes: seq<byte>)
    requires |s| % 2 == 0
    ensures |bytes| == |s| / 2
  {
    seq(|s| / 2, i requires 0 <= i < |s| / 2 => ParsePair(s[2 * i], s[2 * i + 1]))
  }

  /** `hexToBytes`: only an odd length is refused. */
  function HexToBytes(hex: string): Option<seq<byte>> {
    if |Clean(hex)| % 2 != 0 then None else Some(PairsToBytes(Clean(hex)))
  }

  /** `decodeHex`: every character must be a digit. */
  function DecodeHex(input: string): Option<seq<byte>> {
    if !AllHex(Clean(input)) || |Clean(input)| % 2 != 0 then None else Some(PairsToBytes(Clean(input)))
  }

  method HexToBytesLoop(hex: string) returns (ok: bool, out: array<byte>)
    ensures fresh(out)
    ensures HexToBytes(hex) == if ok then Some(out[..]) else None
  {
    var clean := Clean(hex);
    if |clean| % 2 != 0 {
      out := new byte[0];
      return false, out;
    }
    out := new byte[|clean| / 2];
    for i := 0 to out.Length
      invariant forall k :: 0 <= k < i ==> out[k] == PairsToBytes(clean)[k]
    {
      out[i] := ParsePair(clean[i * 2], clean[i * 2 + 1]);
    }
    assert out[..] == PairsToBytes(clean);
    return true, out;
  }

  method DecodeHexLoop(input: string) returns (ok: bool, out: array<byte>)
    ensures fresh(out)
    ensures DecodeHex(input) == if ok then Some(out[..]) else None
  {
    var clean := Clean(input);
    if !AllHex(clean) || |clean| % 2 != 0 {
      out := new byte[0];
      return false, out;
    }
    out := new byte[|clean| / 2];
    var i := 0;
    while i < |clean|
      invariant i % 2 == 0 && 0 <= i <= |clean|
      invariant forall k :: 0 <= k < i / 2 ==> out[k] == PairsToBytes(clean)[k]
    {
      out[i / 2] := ParsePair(clean[i], clean[i + 1]);
      i := i + 2;
    }
    assert out[..] == PairsToBytes(clean);
    return true, out;
  }

  lemma PairOfDigits(v: int, w: int)
    requires 0 <= v < 16 && 0 <= w < 16
    ensures ParsePair(HexDigit(v), HexDigit(w)) == 16 * v + w
  {}

  lemma DigitsOfPair(c: char, d: char)
    requires HexValue(c) >= 0 && HexValue(d) >= 0 && !('A' <= c <= 'F') && !('A' <= d <= 'F')
    ensures HexDigit(ParsePair(c, d) / 16) == c && HexDigit(ParsePair(c, d) % 16) == d
  {}

  lemma NoPrefix(s: string)
    requires AllHex(s)
    ensures Clean(s) == s
  {
    if |s| >= 2 {
      assert HexValue(s[1]) >= 0;
    }
  }

  /** Printing bytes and reading them back gives the bytes, ... */
  lemma HexRoundTrip(bytes: seq<byte>)
    ensures AllHex(BytesToHex(bytes)) && Clean(BytesToHex(bytes)) == BytesToHex(bytes)
    ensures DecodeHex(BytesToHex(bytes)) == Some(bytes)
    ensures HexToBytes(BytesToHex(bytes)) == Some(bytes)
  {
    hide HexDigit, HexValue, ParsePair;
    var s := BytesToHex(bytes);
    NoPrefix(s);
    forall i | 0 <= i < |bytes|
      ensures PairsToBytes(s)[i] == bytes[i]
    {
      assert s[2 * i] == HexDigit(bytes[i] / 16) && s[2 * i + 1] == HexDigit(bytes[i] % 16);
      PairOfDigits(bytes[i] / 16, bytes[i] % 16);
    }
    assert PairsToBytes(s) == bytes;
  }

  predicate LowerHex(s: string) {
    |s| % 2 == 0 && AllHex(s) && forall i :: 0 <= i < |s| ==> !('A' <= s[i] <= 'F')
  }

  /** ... and a text in lower case without prefix is the one that is printed. */
  lemma HexUnique(s: string)
    requires LowerHex(s)
    ensures HexToBytes(s) == Some(PairsToBytes(s)) && BytesToHex(PairsToBytes(s)) == s
  {
    hide HexDigit, HexValue, ParsePair;
    NoPrefix(s);
    var t := BytesToHex(PairsToBytes(s));
    forall i | 0 <= i < |s|
      ensures t[i] == s[i]
    {
      var k := i / 2;
      assert PairsToBytes(s)[k] == ParsePair(s[2 * k], s[2 * k + 1]);
      DigitsOfPair(s[2 * k], s[2 * k + 1]);
      assert i == 2 * k || i == 2 * k + 1;
    }
    assert t == s;
  }

  // ----- Base64

  function Digit64(v: int): char
    requires 0 <= v < 64
  {
    if v < 26 then ('A' as int + v) as char
    else if v < 52 then ('a' as int + v - 26) as char
    else if v < 62 then ('0' as int + v - 52) as char
    else if v == 62 then '+'
    else '/'
  }

  function Value64(c: char): (v: int)
    ensures -1 <= v < 64
  {
    if 'A' <= c <= 'Z' then c as int - 'A' as int
    else if 'a' <= c <= 'z' then c as int - 'a' as int + 26
    else if '0' <= c <= '9' then c as int - '0' as int + 52
    else if c == '+' then 62
    else if c == '/' then 63
    else -1
  }

  /** Base64 digits without padding. */
  function Digits64(b: seq<byte>): string {
    if |b| == 0 then ""
    else if |b| == 1 then [Digit64(b[0] / 4), Digit64(b[0] % 4 * 16)]
    else if |b| == 2 then [Digit64(b[0] / 4), Digit64(b[0] % 4 * 16 + b[1] / 16), Digit64(b[1] % 16 * 4)]
    else [Digit64(b[0] / 4), Digit64(b[0] % 4 * 16 + b[1] / 16),
          Digit64(b[1] % 16 * 4 + b[2] / 64), Digit64(b[2] % 64)] + Digits64(b[3..])
  }

  function Padding64(n: nat): string {
    if n % 3 == 0 then "" else if n % 3 == 1 then "==" else "="
  }

  function Btoa(b: seq<byte>): string {
    Digits64(b) + Padding64(|b|)
  }

  predicate IsAsciiSpace(c: char) {
    var n := c as int;
    n == 9 || n == 10 || n == 12 || n == 13 || n == 32
  }

  function WithoutAsciiSpace(s: string): string {
    if s == "" then ""
    else if IsAsciiSpace(s[0]) then WithoutAsciiSpace(s[1..])
    else [s[0]] + WithoutAsciiSpace(s[1..])
  }

  /** At most two '=' are dropped, and only from a text of whole groups. */
  function WithoutPadding(s: string): string {
    if |s| == 0 || |s| % 4 != 0 then s
    else if s[|s| - 1] != '=' then s
    else if s[|s| - 2] != '=' then s[..|s| - 1]
    else s[..|s| - 2]
  }

  predicate All64(s: string) {
    forall i :: 0 <= i < |s| ==> Value64(s[i]) >= 0
  }

  function Bytes64(s: string): seq<byte>
    requires All64(s) && |s| % 4 != 1
  {
    if |s| == 0 then []
    else if |s| == 2 then [Value64(s[0]) * 4 + Value64(s[1]) / 16]
    else if |s| == 3 then
      [Value64(s[0]) * 4 + Value64(s[1]) / 16, Value64(s[1]) % 16 * 16 + Value64(s[2]) / 4]
    else
      [Value64(s[0]) * 4 + Value64(s[1]) / 16, Value64(s[1]) % 16 * 16 + Value64(s[2]) / 4,
       Value64(s[2]) % 4 * 64 + Value64(s[3])] + Bytes64(s[4..])
  }

  /** `atob`, the forgiving base64 decoder. */
  function Atob(s: string): Option<seq<byte>> {
    var t := WithoutPadding(WithoutAsciiSpace(s));
    if |t| % 4 == 1 || !All64(t) then None else Some(Bytes64(t))
  }

  lemma DigitValue(v: int)
    requires 0 <= v < 64
    ensures Value64(Digit64(v)) == v && Digit64(v) != '=' && !IsAsciiSpace(Digit64(v))
  {}

  ghost predicate Plain(s: string) {
    All64(s) && forall i :: 0 <= i < |s| ==> s[i] != '=' && !IsAsciiSpace(s[i])
  }

  lemma {:induction false} DigitsRoundTrip(b: seq<byte>)
    ensures |Digits64(b)| % 4 == (if |b| % 3 == 0 then 0 else |b| % 3 + 1)
    ensures Plain(Digits64(b)) && Bytes64(Digits64(b)) == b
  {
    hide Digits64, Plain, Bytes64, All64, Group;
    if |b| == 0 {
      NoDigits();
      assert b == [];
    } else if |b| == 1 {
      LastOne(b[0]);
      assert b == [b[0]];
    } else if |b| == 2 {
      LastTwo(b[0], b[1]);
      assert b == [b[0], b[1]];
    } else {
      var tail := Digits64(b[3..]);
      DigitsRoundTrip(b[3..]);
      GroupRoundTrip(b[0], b[1], b[2]);
      FirstGroup(b);
      GroupThenTail(Group(b[0], b[1], b[2]), tail);
      assert b == [b[0], b[1], b[2]] + b[3..];
    }
  }

  lemma NoDigits()
    ensures Digits64([]) == "" && Plain("") && Bytes64("") == []
  {}

  lemma FirstGroup(b: seq<byte>)
    requires |b| >= 3
    ensures Digits64(b) == Group(b[0], b[1], b[2]) + Digits64(b[3..]) && |Group(b[0], b[1], b[2])| == 4
  {
    hide Digit64;
  }

  lemma LastOne(x: byte)
    ensures |Digits64([x])| == 2 && Plain(Digits64([x])) && Bytes64(Digits64([x])) == [x]
  {
    hide Digit64, Value64, IsAsciiSpace;
    DigitValue(x / 4);
    DigitValue(x % 4 * 16);
  }

  lemma LastTwo(x: byte, y: byte)
    ensures |Digits64([x, y])| == 3 && Plain(Digits64([x, y])) && Bytes64(Digits64([x, y])) == [x, y]
  {
    hide Digit64, Value64, IsAsciiSpace;
    var p, q, r := x / 4, x % 4 * 16 + y / 16, y % 16 * 4;
    DigitValue(p);
    DigitValue(q);
    DigitValue(r);
    Sextets(x, y, 0);
  }

  function Group(x: byte, y: byte, z: byte): string {
    [Digit64(x / 4), Digit64(x % 4 * 16 + y / 16), Digit64(y % 16 * 4 + z / 64), Digit64(z % 64)]
  }

  lemma Sextets(x: byte, y: byte, z: byte)
    ensures var p, q, r, t := x / 4, x % 4 * 16 + y / 16, y % 16 * 4 + z / 64, z % 64;
            p * 4 + q / 16 == x && q % 16 * 16 + r / 4 == y && r % 4 * 64 + t == z
  {}

  lemma FourDigits(p: int, q: int, r: int, t: int)
    requires 0 <= p < 64 && 0 <= q < 64 && 0 <= r < 64 && 0 <= t < 64
    ensures var s := [Digit64(p), Digit64(q), Digit64(r), Digit64(t)];
            Plain(s) && Bytes64(s) == [p * 4 + q / 16, q % 16 * 16 + r / 4, r % 4 * 64 + t]
  {
    hide Digit64, Value64, IsAsciiSpace;
    DigitValue(p);
    DigitValue(q);
    DigitValue(r);
    DigitValue(t);
    assert [Digit64(p), Digit64(q), Digit64(r), Digit64(t)][4..] == "";
  }

  lemma GroupRoundTrip(x: byte, y: byte, z: byte)
    ensures Plain(Group(x, y, z)) && Bytes64(Group(x, y, z)) == [x, y, z]
  {
    hide Digit64, Plain, Bytes64;
    FourDigits(x / 4, x % 4 * 16 + y / 16, y % 16 * 4 + z / 64, z % 64);
    Sextets(x, y, z);
  }

  /** The three bytes of four digits. */
  function ThreeBytes(p: char, q: char, r: char, t: char): seq<byte>
    requires Value64(p) >= 0 && Value64(q) >= 0 && Value64(r) >= 0 && Value64(t) >= 0
  {
    [Value64(p) * 4 + Value64(q) / 16, Value64(q) % 16 * 16 + Value64(r) / 4, Value64(r) % 4 * 64 + Value64(t)]
  }

  lemma FirstBytes(s: string)
    requires All64(s) && |s| >= 4 && |s| % 4 != 1
    ensures All64(s[4..]) && Bytes64(s) == ThreeBytes(s[0], s[1], s[2], s[3]) + Bytes64(s[4..])
  {
    hide Value64;
  }

  lemma GroupThenTail(four: string, tail: string)
    requires |four| == 4 && Plain(four) && Plain(tail) && |tail| % 4 != 1
    ensures Plain(four + tail) && Bytes64(four + tail) == Bytes64(four) + Bytes64(tail)
  {
    hide Value64, IsAsciiSpace, Bytes64, ThreeBytes;
    var s := four + tail;
    assert s[4..] == tail && four[4..] == "";
    PlainConcat(four, tail);
    FirstBytes(s);
    FirstBytes(four);
    NoDigits();
  }

  lemma PlainConcat(s: string, t: string)
    requires Plain(s) && Plain(t)
    ensures Plain(s + t)
  {
    hide Value64, IsAsciiSpace;
  }

  lemma {:induction false} NoSpaceToDrop(s: string)
    requires forall i :: 0 <= i < |s| ==> !IsAsciiSpace(s[i])
    ensures WithoutAsciiSpace(s) == s
  {
    if s != "" {
      NoSpaceToDrop(s[1..]);
    }
  }

  /** `atob` inverts the base64 writer on every byte string. */
  lemma Base64RoundTrip(b: seq<byte>)
    ensures Atob(Btoa(b)) == Some(b)
  {
    var d, s := Digits64(b), Btoa(b);
    DigitsRoundTrip(b);
    PaddedDigits(b);
    hide Digits64, Bytes64, Value64;
    NoSpaceToDrop(s);
  }

  lemma PaddedDigits(b: seq<byte>)
    ensures forall i :: 0 <= i < |Btoa(b)| ==> !IsAsciiSpace(Btoa(b)[i])
    ensures WithoutPadding(Btoa(b)) == Digits64(b)
  {
    var d, s := Digits64(b), Btoa(b);
    DigitsRoundTrip(b);
    hide Digits64, Bytes64, Value64;
    forall i | 0 <= i < |s|
      ensures !IsAsciiSpace(s[i])
    {
      if i >= |d| {
        assert s[i] == '=';
      }
    }
    hide IsAsciiSpace, All64;
    if |b| % 3 == 0 {
      assert s == d;
    } else {
      assert d != "" && d[|d| - 1] != '=';
      assert s[..|d|] == d;
    }
  }

  // ----- Texts written out

  /** Hexadecimal digits are printed high digit first and in lower case. */
  lemma HexText()
    ensures BytesToHex([0x01, 0x23, 0x45, 0x67]) == "01234567" && BytesToHex([0x89, 0xab, 0xcd, 0xef]) == "89abcdef"
  {}

  /** They are read in either case, after "0x" or without.  Where `decodeHex` refuses,
      `hexToBytes` stores what `parseInt` makes of each pair. */
  lemma HexRead()
    ensures DecodeHex("0aFf") == Some([10, 255]) && DecodeHex("0x0A") == Some([10])
    ensures DecodeHex("0g") == None && DecodeHex("abc") == None && HexToBytes("abc") == None
    ensures HexToBytes("1g") == Some([1]) && HexToBytes("zz") == Some([0]) && HexToBytes("-1") == Some([255])
  {
    ReadPairs();
    assert Clean("0x0A") == "0x0A"[2..] == "0A";
    assert AllHex("0aFf") && AllHex("0A");
    NoPrefix("0aFf");
    hide PairsToBytes;
  }

  lemma ReadPairs()
    ensures PairsToBytes("0aFf") == [10, 255] && PairsToBytes("0A") == [10]
    ensures PairsToBytes("1g") == [1] && PairsToBytes("zz") == [0] && PairsToBytes("-1") == [255]
  {}

  /** What `parseInt` makes of a pair that is not two digits. */
  lemma OddPairs()
    ensures HexToBytes("110x") == Some([0x11, 0]) && HexToBytes("1x") == Some([1])
    ensures HexToBytes("-g") == Some([0]) && HexToBytes("+5") == Some([5]) && HexToBytes(" g") == Some([0])
  {
    assert PairsToBytes("110x") == [0x11, 0] && PairsToBytes("1x") == [1];
    assert PairsToBytes("-g") == [0] && PairsToBytes("+5") == [5] && PairsToBytes(" g") == [0];
  }

  /** The base64 alphabet: upper case, lower case, digits, plus and slash. */
  lemma Alphabet64(v: int)
    requires 0 <= v < 64
    ensures Digit64(v) ==
            if v < 26 then "ABCDEFGHIJKLMNOPQRSTUVWXYZ"[v] else if v < 52 then "abcdefghijklmnopqrstuvwxyz"[v - 26]
            else "0123456789+/"[v - 52]
  {}

  /** The examples for "Man" and its beginnings ... */
  lemma Base64Texts()
    ensures Btoa([77, 97, 110]) == "TWFu" && Btoa([77, 97]) == "TWE=" && Btoa([77]) == "TQ=="
    ensures Atob("TWFu") == Some([77, 97, 110]) && Atob("TWE=") == Some([77, 97]) && Atob("TQ==") == Some([77])
  {
    ManTexts();
    hide Atob, Btoa;
    Base64RoundTrip([77, 97, 110]);
    Base64RoundTrip([77, 97]);
    Base64RoundTrip([77]);
  }

  lemma ManTexts()
    ensures Btoa([77, 97, 110]) == "TWFu" && Btoa([77, 97]) == "TWE=" && Btoa([77]) == "TQ=="
  {
    assert [77, 97, 110][3..] == [];
  }

  /** ... which are read with white space and without padding, too; and what is not. */
  lemma Base64Read()
    ensures Atob("TWE") == Some([77, 97]) && Atob(" T\nWE=") == Some([77, 97])
    ensures Atob("T") == None && Atob("TW-u") == None
  {
    assert WithoutAsciiSpace("TWE") == "TWE" && WithoutAsciiSpace(" T\nWE=") == "TWE=";
    assert WithoutAsciiSpace("T") == "T" && WithoutAsciiSpace("TW-u") == "TW-u";
    assert Value64('T') == 19 && Value64('W') == 22 && Value64('E') == 4 && Value64('-') == -1;
    hide WithoutAsciiSpace, Value64;
    assert "TWE="[..3] == "TWE";
  }
}
