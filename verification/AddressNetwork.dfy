/** The Bech32m address codec of `addressNetwork.ts` and the re-encoding of a
    taproot address for the other network. */
module AddressNetwork {
  import opened Options
  import opened Bits
  import opened Checksum
  import opened Strings

  const CHARSET: string := "qpzry9x8gf2tvdw0s3jn54khce6mua7l"

  datatype Decoded = Decoded(hrp: string, data5bit: seq<Symbol>)

  datatype NetworkId = Mainnet | Testnet4

  // ----- Strings

  function LowerChar(c: char): char {
    if 'A' <= c <= 'Z' then (c as int + 32) as char else c
  }

  function ToLower(s: string): (r: string)
    ensures |r| == |s|
  {
    seq(|s|, i requires 0 <= i < |s| => LowerChar(s[i]))
  }

  /** `lastIndexOf`: the greatest index holding `c`, or -1. */
  function LastIndexOf(s: string, c: char): (r: int)
    ensures -1 <= r < |s|
    ensures r >= 0 ==> s[r] == c
    ensures forall i :: r < i < |s| ==> s[i] != c
  {
    if s == [] then -1
    else if s[|s| - 1] == c then |s| - 1
    else LastIndexOf(s[..|s| - 1], c)
  }

  predicate StartsWith(s: string, prefix: string) {
    prefix <= s
  }

  // ----- Symbols and characters

  predicate InCharset(s: string) {
    forall i :: 0 <= i < |s| ==> IndexOf(CHARSET, s[i]) >= 0
  }

  function Narrow(d: int): Symbol
    requires 0 <= d < 32
  {
    d as Symbol
  }

  function SymbolOf(c: char): Symbol
    requires IndexOf(CHARSET, c) >= 0
  {
    Narrow(IndexOf(CHARSET, c))
  }

  function Symbols(s: string): (d: seq<Symbol>)
    requires InCharset(s)
    ensures |d| == |s|
  {
    seq(|s|, i requires 0 <= i < |s| => SymbolOf(s[i]))
  }

  function CharOf(d: Symbol): char {
    CHARSET[d as int]
  }

  function Chars(data: seq<Symbol>): (s: string)
    ensures |s| == |data|
  {
    seq(|data|, i requires 0 <= i < |data| => CharOf(data[i]))
  }

  // ----- The codec

  function High(c: char): bv32 { (c as int as bv32) >> 5 }

  function Low(c: char): bv32 { (c as int as bv32) & 31 }

  function HrpExpand(hrp: string): seq<bv32> {
    seq(|hrp|, i requires 0 <= i < |hrp| => High(hrp[i])) + [0] +
    seq(|hrp|, i requires 0 <= i < |hrp| => Low(hrp[i]))
  }

  function CreateChecksum(hrp: string, data: seq<Symbol>): (w: seq<Symbol>)
    ensures |w| == 6
  {
    Unpack(Xor(Run(1, HrpExpand(hrp) + Widen(data) + ZEROS), BECH32M_CONST))
  }

  function Encode(hrp: string, data: seq<Symbol>): string {
    hrp + "1" + Chars(data + CreateChecksum(hrp, data))
  }

  function Decode(addr: string): Option<Decoded> {
    var lower := ToLower(addr);
    var sep := LastIndexOf(lower, '1');
    if sep < 1 || sep + 7 > |lower| || !InCharset(lower[sep + 1..]) then None
    else
      var hrp, data := lower[..sep], Symbols(lower[sep + 1..]);
      if Run(1, HrpExpand(hrp) + Widen(data)) != BECH32M_CONST then None
      else Some(Decoded(hrp, data[..|data| - 6]))
  }

  function ReEncodeTaprootAddress(address: string, network: NetworkId): string {
    var isTestnet := StartsWith(address, "tb1p");
    var isMainnet := StartsWith(address, "bc1p");
    if !isTestnet && !isMainnet then address
    else if network == Mainnet && isMainnet then address
    else if network != Mainnet && isTestnet then address
    else
      match Decode(address)
      case None => address
      case Some(d) => Encode(if network == Mainnet then "bc" else "tb", d.data5bit)
  }

  // ----- The loops of the source compute these functions

  method HrpExpandLoop(hrp: string) returns (ret: seq<bv32>)
    ensures ret == HrpExpand(hrp)
  {
    ret := [];
    for i := 0 to |hrp|
      invariant ret == seq(i, k requires 0 <= k < i => High(hrp[k]))
    {
      ret := ret + [High(hrp[i])];
    }
    ret := ret + [0];
    ghost var high := ret;
    for i := 0 to |hrp|
      invariant ret == high + seq(i, k requires 0 <= k < i => Low(hrp[k]))
    {
      ret := ret + [Low(hrp[i])];
    }
  }

  method CreateChecksumLoop(hrp: string, data: seq<Symbol>) returns (ret: seq<Symbol>)
    ensures ret == CreateChecksum(hrp, data)
    ensures Run(1, HrpExpand(hrp) + Widen(data) + Widen(ret)) == BECH32M_CONST
  {
    hide Run, Unpack, Xor, HrpExpand, Widen;
    var expanded := HrpExpandLoop(hrp);
    ValuesInRange(hrp, data);
    var chk := Polymod(expanded + Widen(data) + ZEROS);
    var mod := chk ^ BECH32M_CONST;
    XorIs(chk, BECH32M_CONST);
    ret := [];
    for i := 0 to 6
      invariant ret == Unpack(mod)[..i]
    {
      ret := ret + [SymbolAt(mod, i)];
    }
    assert Unpack(mod)[..6] == Unpack(mod);
    ChecksumUnique(HrpExpand(hrp) + Widen(data), ret);
  }

  function SymbolAt(m: bv32, i: nat): (d: Symbol)
    requires i < 6
    ensures d == Unpack(m)[i]
  {
    ((m >> (5 * (5 - i))) & 31) as Symbol
  }

  method EncodeLoop(hrp: string, data: seq<Symbol>) returns (ret: string)
    ensures ret == Encode(hrp, data)
  {
    var checksum := CreateChecksumLoop(hrp, data);
    ret := hrp + "1";
    var symbols := data + checksum;
    for i := 0 to |symbols|
      invariant ret == hrp + "1" + Chars(symbols)[..i]
    {
      ret := ret + [CharOf(symbols[i])];
    }
    assert Chars(symbols)[..|symbols|] == Chars(symbols);
  }

  method DecodeLoop(addr: string) returns (r: Option<Decoded>)
    ensures r == Decode(addr)
  {
    hide Run, IndexOf, LastIndexOf, HrpExpand, Widen, Narrow, ToLower;
    var lower := ToLower(addr);
    var sep := LastIndexOf(lower, '1');
    if sep < 1 || sep + 7 > |lower| {
      return None;
    }
    var hrp := lower[..sep];
    var data: seq<Symbol> := [];
    for i := sep + 1 to |lower|
      invariant |data| == i - (sep + 1)
      invariant forall k :: sep < k < i ==> IndexOf(CHARSET, lower[k]) >= 0
      invariant forall k :: sep < k < i ==> data[k - (sep + 1)] == SymbolOf(lower[k])
    {
      var d := IndexOf(CHARSET, lower[i]);
      if d == -1 {
        assert lower[sep + 1..][i - (sep + 1)] == lower[i];
        return None;
      }
      data := data + [Narrow(d)];
    }
    assert data == Symbols(lower[sep + 1..]);
    ValuesInRange(hrp, data);
    var expanded := HrpExpandLoop(hrp);
    var chk := Polymod(expanded + Widen(data));
    if chk != BECH32M_CONST {
      return None;
    }
    return Some(Decoded(hrp, data[..|data| - 6]));
  }

  lemma ValuesInRange(hrp: string, data: seq<Symbol>)
    ensures InRange(HrpExpand(hrp)) && InRange(Widen(data)) && InRange(HrpExpand(hrp) + Widen(data))
  {
    forall i | 0 <= i < |hrp|
      ensures High(hrp[i]) < 0x4000_0000 && Low(hrp[i]) < 0x4000_0000
    {
      HighLowRange(hrp[i]);
    }
    forall i | 0 <= i < |data|
      ensures Wide(data[i]) < 0x4000_0000
    {
      WideRange(data[i]);
    }
    hide High, Low, Wide;
  }

  lemma HighLowRange(c: char)
    ensures High(c) < 0x4000_0000 && Low(c) < 0x4000_0000
  {}

  lemma WideRange(d: Symbol)
    ensures Wide(d) < 0x4000_0000
  {}

  // ----- Characters and symbols correspond

  lemma CharsetDistinct()
    ensures |CHARSET| == 32
    ensures forall i, j :: 0 <= i < j < 32 ==> CHARSET[i] != CHARSET[j]
  {}

  lemma CharsetIsLower()
    ensures |CHARSET| == 32
    ensures forall i :: 0 <= i < 32 ==> CHARSET[i] != '1' && LowerChar(CHARSET[i]) == CHARSET[i]
  {}

  lemma CharOfSymbol(d: Symbol)
    ensures IndexOf(CHARSET, CharOf(d)) >= 0 && SymbolOf(CharOf(d)) == d
    ensures CharOf(d) != '1' && LowerChar(CharOf(d)) == CharOf(d)
  {
    CharsetDistinct();
    CharsetIsLower();
    assert 0 <= d as int < 32;
    var i := IndexOf(CHARSET, CharOf(d));
    assert i == d as int;
    assert (d as int) as Symbol == d;
  }

  lemma SymbolOfChar(c: char)
    requires IndexOf(CHARSET, c) >= 0
    ensures CharOf(SymbolOf(c)) == c
  {
    hide IndexOf;
    SymbolRoundTrip(IndexOf(CHARSET, c));
  }

  lemma SymbolRoundTrip(i: int)
    requires 0 <= i < 32
    ensures (i as Symbol) as int == i
  {}

  lemma CharsOfSymbols(data: seq<Symbol>)
    ensures InCharset(Chars(data)) && Symbols(Chars(data)) == data
    ensures ToLower(Chars(data)) == Chars(data) && '1' !in Chars(data)
  {
    forall i | 0 <= i < |data|
      ensures IndexOf(CHARSET, Chars(data)[i]) >= 0 && SymbolOf(Chars(data)[i]) == data[i]
      ensures LowerChar(Chars(data)[i]) == Chars(data)[i] && Chars(data)[i] != '1'
    {
      CharOfSymbol(data[i]);
    }
  }

  lemma SymbolsOfChars(s: string)
    requires InCharset(s)
    ensures Chars(Symbols(s)) == s
  {
    forall i | 0 <= i < |s|
      ensures Chars(Symbols(s))[i] == s[i]
    {
      SymbolOfChar(s[i]);
    }
  }

  lemma WidenConcat(a: seq<Symbol>, b: seq<Symbol>)
    ensures Widen(a + b) == Widen(a) + Widen(b)
  {}

  // ----- Round trips

  /** What an accepted address is: its checksum is the one `encode` writes. */
  lemma DecodeMeans(addr: string)
    requires Decode(addr).Some?
    ensures var lower := ToLower(addr); var sep := LastIndexOf(lower, '1'); var d := Decode(addr).value;
            && 1 <= sep && sep + 7 <= |lower| && InCharset(lower[sep + 1..])
            && d.hrp == lower[..sep]
            && Symbols(lower[sep + 1..]) == d.data5bit + CreateChecksum(d.hrp, d.data5bit)
  {
    hide Run, Unpack, IndexOf;
    var lower := ToLower(addr);
    var sep := LastIndexOf(lower, '1');
    var hrp, data := lower[..sep], Symbols(lower[sep + 1..]);
    var body, w := data[..|data| - 6], data[|data| - 6..];
    assert data == body + w;
    ValuesInRange(hrp, body);
    WidenConcat(body, w);
    assert HrpExpand(hrp) + Widen(data) == HrpExpand(hrp) + Widen(body) + Widen(w);
    ChecksumUnique(HrpExpand(hrp) + Widen(body), w);
  }

  lemma EncodeShape(hrp: string, data: seq<Symbol>)
    ensures var lower := ToLower(Encode(hrp, data));
            && LastIndexOf(lower, '1') == |hrp| && |lower| == |hrp| + 1 + |data| + 6
            && lower[..|hrp|] == ToLower(hrp)
            && lower[|hrp| + 1..] == Chars(data + CreateChecksum(hrp, data))
  {
    assert ToLower("1") == "1";
    hide CreateChecksum, IndexOf, CharOf, Chars, ToLower, LastIndexOf;
    var w := CreateChecksum(hrp, data);
    var tail := Chars(data + w);
    CharsOfSymbols(data + w);
    LowerConcat(hrp + "1", tail);
    LowerConcat(hrp, "1");
    var lower := ToLower(hrp) + "1" + tail;
    LastIndexIs(lower, '1', |hrp|);
  }

  lemma LowerConcat(a: string, b: string)
    ensures ToLower(a + b) == ToLower(a) + ToLower(b)
  {}

  /** `encode` writes an address that decodes to its arguments exactly when the
      human-readable part is non-empty and has no upper-case letter. */
  lemma DecodeEncode(hrp: string, data: seq<Symbol>)
    ensures Decode(Encode(hrp, data)) == Some(Decoded(hrp, data)) <==> hrp != "" && ToLower(hrp) == hrp
  {
    hide CreateChecksum, IndexOf, CharOf, Chars, Run, Encode, Unpack, Symbols, LastIndexOf, HrpExpand, Widen;
    var w := CreateChecksum(hrp, data);
    EncodeShape(hrp, data);
    CharsOfSymbols(data + w);
    if hrp != "" && ToLower(hrp) == hrp {
      ValuesInRange(hrp, data);
      WidenConcat(data, w);
      assert HrpExpand(hrp) + Widen(data + w) == HrpExpand(hrp) + Widen(data) + Widen(w);
      ChecksumHolds(hrp, data);
      assert (data + w)[..|data|] == data;
    }
  }

  lemma ChecksumHolds(hrp: string, data: seq<Symbol>)
    ensures Run(1, HrpExpand(hrp) + Widen(data) + Widen(CreateChecksum(hrp, data))) == BECH32M_CONST
  {
    hide Run, Unpack, HrpExpand, Widen;
    ValuesInRange(hrp, data);
    ChecksumUnique(HrpExpand(hrp) + Widen(data), CreateChecksum(hrp, data));
  }

  lemma LastIndexIs(s: string, c: char, i: int)
    requires 0 <= i < |s| && s[i] == c && forall j :: i < j < |s| ==> s[j] != c
    ensures LastIndexOf(s, c) == i
  {}

  /** The six checksum symbols are determined by the rest: whatever decodes is,
      up to case, what `encode` writes. */
  lemma EncodeDecode(addr: string)
    requires Decode(addr).Some?
    ensures Encode(Decode(addr).value.hrp, Decode(addr).value.data5bit) == ToLower(addr)
  {
    hide Run, Unpack, CreateChecksum, IndexOf;
    DecodeMeans(addr);
    var lower := ToLower(addr);
    var sep := LastIndexOf(lower, '1');
    SymbolsOfChars(lower[sep + 1..]);
    assert lower == lower[..sep] + [lower[sep]] + lower[sep + 1..];
  }

  /** Decoding ignores case, mixed case included. */
  lemma DecodeIgnoresCase(addr: string)
    ensures Decode(ToLower(addr)) == Decode(addr)
  {
    assert ToLower(ToLower(addr)) == ToLower(addr);
  }

  /** So an address in mixed case is accepted, for any data. */
  lemma MixedCaseAccepted(data: seq<Symbol>)
    ensures var address := "Tb" + Encode("tb", data)[2..];
            Decode(address) == Some(Decoded("tb", data)) && address[0] == 'T' && address[1] == 'b'
  {
    hide CreateChecksum, CharOf, Chars, Decode;
    var written := Encode("tb", data);
    var address := "Tb" + written[2..];
    assert ToLower("tb") == "tb";
    DecodeEncode("tb", data);
    DecodeIgnoresCase(address);
    DecodeIgnoresCase(written);
    assert ToLower(address) == ToLower(written);
  }

  // ----- Burst errors

  /** Lower-cased, `a` and `b` agree outside the window `[from, to)`. */
  ghost predicate AgreeOutside(a: string, b: string, from: int, to: int)
    requires |a| == |b|
  {
    forall i :: 0 <= i < |a| && !(from <= i < to) ==> ToLower(a)[i] == ToLower(b)[i]
  }

  ghost function Separator(addr: string): int {
    LastIndexOf(ToLower(addr), '1')
  }

  /** Two addresses with the same separator that differ only inside a window of
      at most six data characters cannot both decode. */
  lemma BurstDetected(a: string, b: string, from: int, to: int)
    requires |a| == |b| && Separator(a) == Separator(b)
    requires Separator(a) < from <= to <= |a| && to - from <= 6
    requires AgreeOutside(a, b, from, to)
    requires Decode(a).Some? && Decode(b).Some?
    ensures ToLower(a) == ToLower(b)
  {
    hide Run, Unpack, CreateChecksum, IndexOf, LastIndexOf;
    var la, lb := ToLower(a), ToLower(b);
    var sep := LastIndexOf(la, '1');
    DecodeMeans(a);
    var da, db := Symbols(la[sep + 1..]), Symbols(lb[sep + 1..]);
    // Every window of at most six data characters lies in one of exactly six.
    var at := (if from + 6 <= |a| then from else |a| - 6) - (sep + 1);
    var hrp := la[..sep];
    assert hrp == lb[..sep];
    forall i | 0 <= i < |da| && !(at <= i < at + 6)
      ensures da[i] == db[i]
    {
      assert la[sep + 1..][i] == la[sep + 1 + i] == lb[sep + 1 + i] == lb[sep + 1..][i];
    }
    SymbolWindow(hrp, da, db, at);
    SymbolsOfChars(la[sep + 1..]);
    SymbolsOfChars(lb[sep + 1..]);
    assert la == la[..sep + 1] + la[sep + 1..];
    assert lb == lb[..sep + 1] + lb[sep + 1..];
    assert la[..sep + 1] == lb[..sep + 1];
  }

  lemma SymbolWindow(hrp: string, da: seq<Symbol>, db: seq<Symbol>, at: int)
    requires |da| == |db| && 0 <= at <= |da| - 6
    requires forall i :: 0 <= i < |da| && !(at <= i < at + 6) ==> da[i] == db[i]
    requires Run(1, HrpExpand(hrp) + Widen(da)) == Run(1, HrpExpand(hrp) + Widen(db))
    ensures da == db
  {
    hide Run, HrpExpand;
    var before, after := da[..at], da[at + 6..];
    var w, x := da[at..at + 6], db[at..at + 6];
    assert db[..at] == before && db[at + 6..] == after;
    assert da == before + w + after && db == before + x + after;
    if w != x {
      ValuesInRange(hrp, before);
      ValuesInRange(hrp, after);
      var pre := HrpExpand(hrp) + Widen(before);
      WidenWindow(HrpExpand(hrp), before, w, after);
      WidenWindow(HrpExpand(hrp), before, x, after);
      hide Widen;
      BurstChangesChecksum(pre, w, x, Widen(after));
    }
  }

  lemma WidenWindow(h: seq<bv32>, before: seq<Symbol>, w: seq<Symbol>, after: seq<Symbol>)
    ensures h + Widen(before + w + after) == h + Widen(before) + Widen(w) + Widen(after)
  {
    hide Wide;
  }

  /** Mistyping at most six consecutive data characters of a valid address by
      other charset characters -- one wrong character or an adjacent swap among
      them -- gives a string that does not decode and is never re-encoded. */
  lemma CorruptedAddressUnchanged(valid: string, typed: string, from: int, to: int, network: NetworkId)
    requires Decode(valid).Some? && |valid| == |typed|
    requires Separator(valid) < from <= to <= |valid| && to - from <= 6
    requires AgreeOutside(valid, typed, from, to)
    requires InCharset(ToLower(typed)[from..to])
    requires ToLower(typed) != ToLower(valid)
    ensures Decode(typed) == None
    ensures ReEncodeTaprootAddress(typed, network) == typed
  {
    hide Run, Unpack, CreateChecksum, IndexOf;
    var la, lb := ToLower(valid), ToLower(typed);
    var sep := LastIndexOf(la, '1');
    DecodeMeans(valid);
    forall j | sep < j < |lb|
      ensures lb[j] != '1'
    {
      CharsetIsLower();
      if from <= j < to {
        assert lb[from..to][j - from] == lb[j];
      }
    }
    LastIndexIs(lb, '1', sep);
    if Decode(typed).Some? {
      BurstDetected(valid, typed, from, to);
    }
  }

  // ----- Re-encoding

  /** Re-encoding to the address's own network, or of anything that does not
      decode or is not a taproot address, changes nothing. */
  lemma ReEncodeIdentity(address: string, network: NetworkId)
    requires Decode(address) == None
             || StartsWith(address, if network == Mainnet then "bc1p" else "tb1p")
             || !(StartsWith(address, "bc1p") || StartsWith(address, "tb1p"))
    ensures ReEncodeTaprootAddress(address, network) == address
  {}

  function Hrp(network: NetworkId): string {
    if network == Mainnet then "bc" else "tb"
  }

  function Other(network: NetworkId): NetworkId {
    if network == Mainnet then Testnet4 else Mainnet
  }

  // Without data the first character after the separator belongs to the checksum.  The
  // two human-readable parts have one such address each, and neither goes on with 'p'.

  /** The registers after "tb" and "bc" and six zeros. */
  lemma EmptyRegisters()
    ensures Run(1, HrpExpand("tb") + Widen([]) + ZEROS) == 0x304783c0
    ensures Run(1, HrpExpand("bc") + Widen([]) + ZEROS) == 0x11bb149d
  {
    EmptyExpanded();
    hide Run, HrpExpand;
    EmptyRegister([3, 3, 0, 20, 2], 0x2318282);
    EmptyRegister([3, 3, 0, 2, 3], 0x2318043);
  }

  lemma EmptyRegister(expanded: seq<bv32>, d: bv32)
    requires |expanded| == 5 && SixSteps(0, [1] + expanded) == d
    ensures Run(1, expanded + ZEROS) == SixSteps(d, ZEROS)
  {
    hide Run, SixSteps;
    PaddedFront([1], expanded + ZEROS);
    assert [1] + (expanded + ZEROS) == ([1] + expanded) + ZEROS;
    RunConcat(0, [1] + expanded, ZEROS);
    SixOnce(0, [1] + expanded);
    SixOnce(d, ZEROS);
  }

  lemma EmptyExpanded()
    ensures HrpExpand("tb") + Widen([]) + ZEROS == [3, 3, 0, 20, 2] + ZEROS
    ensures HrpExpand("bc") + Widen([]) + ZEROS == [3, 3, 0, 2, 3] + ZEROS
  {
    assert High('t') == 3 && High('b') == 3 && High('c') == 3;
    assert Low('t') == 20 && Low('b') == 2 && Low('c') == 3;
    hide High, Low;
  }

  lemma EmptyChecksums()
    ensures CharOf(CreateChecksum("tb", [])[0]) == 'd' && CharOf(CreateChecksum("bc", [])[0]) == 'a'
  {
    EmptyRegisters();
    hide Run, HrpExpand, Widen;
    assert [] + ZEROS == ZEROS;
    assert Unpack(Xor(0x304783c0, BECH32M_CONST))[0] == 13;
    assert Unpack(Xor(0x11bb149d, BECH32M_CONST))[0] == 29;
    assert CharOf(13) == 'd' && CharOf(29) == 'a';
  }

  /** Re-encoding a decodable taproot address for the other network keeps its
      5-bit data under the new human-readable part.  Re-encoding back restores
      the lower-case original exactly when its last '1' is the one at index 2:
      the code drops any longer human-readable part. */
  lemma ReEncodeRoundTrip(address: string, home: NetworkId)
    requires StartsWith(address, Hrp(home) + "1p") && Decode(address).Some?
    ensures var there := ReEncodeTaprootAddress(address, Other(home));
            && Decode(there) == Some(Decoded(Hrp(Other(home)), Decode(address).value.data5bit))
            && (ReEncodeTaprootAddress(there, home) == ToLower(address) <==> Separator(address) == 2)
            && (Separator(address) == 2 ==> StartsWith(there, Hrp(Other(home)) + "1p"))
  {
    hide Run, Unpack, CreateChecksum, IndexOf, CharOf, Chars, Symbols, LastIndexOf, Decode, Encode;
    var d := Decode(address).value;
    var away := Other(home);
    var there := Encode(Hrp(away), d.data5bit);
    PrefixesDiffer(address, home);
    assert ReEncodeTaprootAddress(address, away) == there;
    DecodeMeans(address);
    EncodeDecode(address);
    LowerHrp(home);
    LowerHrp(away);
    DecodeEncode(Hrp(away), d.data5bit);
    EncodeShape(Hrp(away), d.data5bit);
    EncodeShape(Hrp(home), d.data5bit);
    if Separator(address) == 2 {
      HasData(address, home);
      FirstSymbolIsP(address, home);
      EncodeStart(Hrp(away), d.data5bit);
      PrefixesDiffer(there, away);
      assert ReEncodeTaprootAddress(there, home) == Encode(Hrp(home), d.data5bit);
    } else {
      assert |there| < |ToLower(address)| && |Encode(Hrp(home), d.data5bit)| < |ToLower(address)|;
    }
  }

  lemma LowerHrp(network: NetworkId)
    ensures ToLower(Hrp(network)) == Hrp(network) && |Hrp(network)| == 2
  {}

  lemma PrefixesDiffer(address: string, home: NetworkId)
    requires StartsWith(address, Hrp(home) + "1p")
    ensures !StartsWith(address, Hrp(Other(home)) + "1p")
    ensures |address| >= 4 && address[2] == '1' && Separator(address) >= 2
    ensures ToLower(address)[..2] == Hrp(home) && ToLower(address)[3] == 'p'
  {
    var prefix := Hrp(home) + "1p";
    forall i | 0 <= i < 4
      ensures address[i] == prefix[i] && ToLower(address)[i] == prefix[i]
    {}
    assert ToLower(address)[..2] == Hrp(home);
    assert ToLower(address)[2] == '1';
    assert (Hrp(Other(home)) + "1p")[0] != prefix[0];
  }

  lemma EncodeStart(hrp: string, data: seq<Symbol>)
    requires |hrp| == 2 && |data| >= 1 && CharOf(data[0]) == 'p'
    ensures StartsWith(Encode(hrp, data), hrp + "1p")
  {
    hide CreateChecksum, CharOf;
    assert Encode(hrp, data)[..4] == hrp + "1p";
  }

  lemma EmptyStart(home: NetworkId)
    ensures Encode(Hrp(home), [])[3] != 'p'
  {
    EmptyChecksums();
    var w := CreateChecksum(Hrp(home), []);
    hide CreateChecksum, CharOf;
    assert [] + w == w;
    assert Encode(Hrp(home), [])[3] == Chars(w)[0];
  }

  lemma HasData(address: string, home: NetworkId)
    requires StartsWith(address, Hrp(home) + "1p") && Decode(address).Some? && Separator(address) == 2
    ensures |Decode(address).value.data5bit| >= 1
  {
    hide Run, Unpack, CreateChecksum, IndexOf, CharOf, LastIndexOf, Decode, Encode;
    PrefixesDiffer(address, home);
    EncodeDecode(address);
    DecodeMeans(address);
    EmptyStart(home);
  }

  lemma FirstSymbolIsP(address: string, home: NetworkId)
    requires StartsWith(address, Hrp(home) + "1p")
    requires Decode(address).Some? && Separator(address) == 2 && |Decode(address).value.data5bit| >= 1
    ensures Decode(address).value.hrp == Hrp(home)
    ensures CharOf(Decode(address).value.data5bit[0]) == 'p'
  {
    hide Run, Unpack, CreateChecksum, IndexOf, CharOf, LastIndexOf, Decode;
    var lower := ToLower(address);
    PrefixesDiffer(address, home);
    DecodeMeans(address);
    assert lower[3..][0] == 'p';
    assert Symbols(lower[3..])[0] == SymbolOf('p') == Decode(address).value.data5bit[0];
    SymbolOfChar('p');
  }

  /** The round trip does fail on some addresses: "tb1px" and any data, which
      `decode` accepts, becomes an address whose human-readable part is "bc". */
  lemma LongerPrefixIsLost(data: seq<Symbol>)
    ensures Decode(Encode("tb1px", data)) == Some(Decoded("tb1px", data))
    ensures ReEncodeTaprootAddress(Encode("tb1px", data), Mainnet) == Encode("bc", data)
  {
    hide Run, Unpack, CreateChecksum, IndexOf, CharOf, Chars, LastIndexOf, Decode;
    assert ToLower("tb1px") == "tb1px";
    DecodeEncode("tb1px", data);
    var address := Encode("tb1px", data);
    assert address[..4] == "tb1p";
    PrefixesDiffer(address, Testnet4);
    assert !StartsWith(address, "bc1p");
  }

  /** Lower-casing, letter by letter. */
  lemma LowerLetters(i: nat)
    requires i < 26
    ensures LowerChar("ABCDEFGHIJKLMNOPQRSTUVWXYZ"[i]) == "abcdefghijklmnopqrstuvwxyz"[i]
  {}
}
