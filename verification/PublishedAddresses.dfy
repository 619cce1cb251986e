/** Addresses whose text is published: the examples of BIP-350, section "Test vectors for
    Bech32m", and the pair of taproot addresses in the tests of the wallet.  They fix what
    the laws of the codec leave open: the generator words, the final register, the
    character set. */
module PublishedAddresses {
  import opened Options
  import opened Bits
  import opened Checksum
  import opened AddressNetwork

  /** The register after six symbols. */
  function AfterSix(c: bv32, p: Symbol, q: Symbol, r: Symbol, s: Symbol, t: Symbol, u: Symbol): bv32 {
    OneStep(OneStep(OneStep(OneStep(OneStep(OneStep(c, Wide(p)), Wide(q)), Wide(r)), Wide(s)), Wide(t)), Wide(u))
  }

  lemma Six(c: bv32, p: Symbol, q: Symbol, r: Symbol, s: Symbol, t: Symbol, u: Symbol, rest: seq<Symbol>)
    ensures Run(c, Widen([p, q, r, s, t, u] + rest)) == Run(AfterSix(c, p, q, r, s, t, u), Widen(rest))
  {
    hide OneStep, Run, Wide;
    var w := [p, q, r, s, t, u];
    WidenConcat(w, rest);
    RunConcat(c, Widen(w), Widen(rest));
    SixOnce(c, Widen(w));
  }

  lemma LastSix(c: bv32, p: Symbol, q: Symbol, r: Symbol, s: Symbol, t: Symbol, u: Symbol)
    ensures Run(c, Widen([p, q, r, s, t, u])) == AfterSix(c, p, q, r, s, t, u)
  {
    hide OneStep, Run, Wide;
    SixOnce(c, Widen([p, q, r, s, t, u]));
  }

  /** Symbols in groups of six. */
  datatype Groups = End | Group(p: Symbol, q: Symbol, r: Symbol, s: Symbol, t: Symbol, u: Symbol, rest: Groups)

  function Flat(g: Groups): seq<Symbol> {
    match g
    case End => []
    case Group(p, q, r, s, t, u, rest) => [p, q, r, s, t, u] + Flat(rest)
  }

  function Register(c: bv32, g: Groups): bv32
    decreases g
  {
    match g
    case End => c
    case Group(p, q, r, s, t, u, rest) => Register(AfterSix(c, p, q, r, s, t, u), rest)
  }

  function Text(g: Groups): string {
    match g
    case End => ""
    case Group(p, q, r, s, t, u, rest) =>
      [CharOf(p), CharOf(q), CharOf(r), CharOf(s), CharOf(t), CharOf(u)] + Text(rest)
  }

  lemma {:induction false} RegisterIs(c: bv32, g: Groups, w: seq<Symbol>)
    ensures Run(c, Widen(Flat(g) + w)) == Run(Register(c, g), Widen(w))
    decreases g
  {
    hide AfterSix, Run, Widen;
    match g
    case End => assert [] + w == w;
    case Group(p, q, r, s, t, u, rest) =>
      assert Flat(g) + w == [p, q, r, s, t, u] + (Flat(rest) + w);
      Six(c, p, q, r, s, t, u, Flat(rest) + w);
      RegisterIs(AfterSix(c, p, q, r, s, t, u), rest, w);
  }

  lemma SixChars(p: Symbol, q: Symbol, r: Symbol, s: Symbol, t: Symbol, u: Symbol)
    ensures Chars([p, q, r, s, t, u]) == [CharOf(p), CharOf(q), CharOf(r), CharOf(s), CharOf(t), CharOf(u)]
  {}

  lemma {:induction false} TextIs(g: Groups)
    ensures Chars(Flat(g)) == Text(g)
  {
    hide Chars, CharOf;
    match g
    case End => assert Chars([]) == "";
    case Group(p, q, r, s, t, u, rest) =>
      CharsConcat([p, q, r, s, t, u], Flat(rest));
      SixChars(p, q, r, s, t, u);
      TextIs(rest);
  }

  lemma CharsConcat(a: seq<Symbol>, b: seq<Symbol>)
    ensures Chars(a + b) == Chars(a) + Chars(b)
  {}

  /** `encode` writes the six symbols that complete the register.  `pad` stands for the
      one that the register starts from. */
  lemma EncodeIs(hrp: string, pad: seq<Symbol>, expanded: seq<Symbol>, data: seq<Symbol>, w: seq<Symbol>,
                 all: seq<Symbol>)
    requires |w| == 6 && HrpExpand(hrp) == Widen(expanded)
    requires pad == [1] || pad == [0, 1] || pad == [0, 0, 1]
    requires all == pad + (expanded + (data + w)) && Run(0, Widen(all)) == 0x2bc830a3
    ensures Encode(hrp, data) == hrp + "1" + Chars(data + w)
  {
    hide Run, Unpack, Xor, HrpExpand;
    var values := HrpExpand(hrp) + Widen(data);
    PadIsOne(pad, values + Widen(w));
    hide Widen;
    WidenConcat(pad, expanded + (data + w));
    WidenConcat(expanded, data + w);
    WidenConcat(data, w);
    assert Widen(expanded) + (Widen(data) + Widen(w)) == values + Widen(w);
    ValuesInRange(hrp, data);
    ChecksumUnique(values, w);
  }

  lemma PadIsOne(pad: seq<Symbol>, values: seq<bv32>)
    requires pad == [1] || pad == [0, 1] || pad == [0, 0, 1]
    ensures Run(0, Widen(pad) + values) == Run(1, values)
  {
    assert Wide(0) == 0 && Wide(1) == 1;
    hide Run, Wide;
    PaddedFront(Widen(pad), values);
  }

  /** The shortest example. */
  lemma NoData()
    ensures Encode("a", []) == "a1lqfn3a" && Decode("A1LQFN3A") == Some(Decoded("a", []))
  {
    NoDataTexts();
    NoDataRegister();
    hide *;
    EncodeIs("a", [0, 0, 1], [3, 0, 1], [], [31, 0, 9, 19, 17, 29], [0, 0, 1, 3, 0, 1] + [31, 0, 9, 19, 17, 29]);
    DecodeEncode("a", []);
    DecodeIgnoresCase("A1LQFN3A");
  }

  lemma NoDataTexts()
    ensures HrpExpand("a") == Widen([3, 0, 1]) && Chars([] + [31, 0, 9, 19, 17, 29]) == "lqfn3a"
    ensures ToLower("a") == "a" && ToLower("A1LQFN3A") == "a1lqfn3a"
    ensures [0, 0, 1, 3, 0, 1] + [31, 0, 9, 19, 17, 29] == [0, 0, 1] + ([3, 0, 1] + ([] + [31, 0, 9, 19, 17, 29]))
  {
    assert [] + [31, 0, 9, 19, 17, 29] == [31, 0, 9, 19, 17, 29];
  }

  lemma NoDataRegister()
    ensures Run(0, Widen([0, 0, 1, 3, 0, 1] + [31, 0, 9, 19, 17, 29])) == 0x2bc830a3
  {
    hide Run, Widen;
    Six(0, 0, 0, 1, 3, 0, 1, [31, 0, 9, 19, 17, 29]);
    LastSix(0x8c01, 31, 0, 9, 19, 17, 29);
  }

  /** The symbols 29 to 0 in turn. */
  const DOWN :=
    Group(29, 28, 27, 26, 25, 24,
    Group(23, 22, 21, 20, 19, 18,
    Group(17, 16, 15, 14, 13, 12,
    Group(11, 10, 9, 8, 7, 6,
    Group(5, 4, 3, 2, 1, 0, End)))))

  lemma DownValues()
    ensures Register(0x30018f1b, DOWN) == 0xcd42356
  {}

  /** The character set, symbol by symbol. */
  lemma Characters()
    ensures CharOf(0) == 'q' && CharOf(1) == 'p' && CharOf(2) == 'z' && CharOf(3) == 'r'
    ensures CharOf(4) == 'y' && CharOf(5) == '9' && CharOf(6) == 'x' && CharOf(7) == '8'
    ensures CharOf(8) == 'g' && CharOf(9) == 'f' && CharOf(10) == '2' && CharOf(11) == 't'
    ensures CharOf(12) == 'v' && CharOf(13) == 'd' && CharOf(14) == 'w' && CharOf(15) == '0'
    ensures CharOf(16) == 's' && CharOf(17) == '3' && CharOf(18) == 'j' && CharOf(19) == 'n'
    ensures CharOf(20) == '5' && CharOf(21) == '4' && CharOf(22) == 'k' && CharOf(23) == 'h'
    ensures CharOf(24) == 'c' && CharOf(25) == 'e' && CharOf(26) == '6' && CharOf(27) == 'm'
    ensures CharOf(28) == 'u' && CharOf(29) == 'a' && CharOf(30) == '7' && CharOf(31) == 'l'
  {
    CharactersTo8();
    CharactersTo16();
    CharactersTo24();
    CharactersTo32();
    hide CharOf;
  }

  lemma CharactersTo8()
    ensures CharOf(0) == 'q' && CharOf(1) == 'p' && CharOf(2) == 'z' && CharOf(3) == 'r'
    ensures CharOf(4) == 'y' && CharOf(5) == '9' && CharOf(6) == 'x' && CharOf(7) == '8'
  {}

  lemma CharactersTo16()
    ensures CharOf(8) == 'g' && CharOf(9) == 'f' && CharOf(10) == '2' && CharOf(11) == 't'
    ensures CharOf(12) == 'v' && CharOf(13) == 'd' && CharOf(14) == 'w' && CharOf(15) == '0'
  {}

  lemma CharactersTo24()
    ensures CharOf(16) == 's' && CharOf(17) == '3' && CharOf(18) == 'j' && CharOf(19) == 'n'
    ensures CharOf(20) == '5' && CharOf(21) == '4' && CharOf(22) == 'k' && CharOf(23) == 'h'
  {}

  lemma CharactersTo32()
    ensures CharOf(24) == 'c' && CharOf(25) == 'e' && CharOf(26) == '6' && CharOf(27) == 'm'
    ensures CharOf(28) == 'u' && CharOf(29) == 'a' && CharOf(30) == '7' && CharOf(31) == 'l'
  {}

  lemma DownText()
    ensures Text(DOWN) == "aum6echk45nj3s0wdvt2fg8x9yrzpq"
  {
    Characters();
    hide CharOf;
    assert Text(DOWN) == "aum6ec" + ("hk45nj" + ("3s0wdv" + ("t2fg8x" + "9yrzpq")));
  }

  /** An output key after its first five symbols. */
  const KEY :=
    Group(17, 23, 12, 23, 11, 11,
    Group(24, 8, 29, 7, 2, 15,
    Group(19, 10, 7, 18, 29, 31,
    Group(2, 24, 29, 15, 14, 25, KEY_END))))

  const KEY_END :=
    Group(27, 19, 7, 9, 1, 20,
    Group(8, 29, 18, 20, 31, 19,
    Group(24, 14, 26, 24, 4, 21,
    Group(31, 24, 3, 19, 19, 16, End))))

  lemma KeyValues()
    ensures Register(0x193d2d8, KEY) == 0x36478fd6 && Register(0x117627fc, KEY) == 0x2670c5b3
  {}

  lemma KeyEndText()
    ensures Text(KEY_END) == "mn8fp5gaj5lncw6cy4lcrnns"
  {
    Characters();
    hide CharOf;
    assert Text(KEY_END) == "mn8fp5" + ("gaj5ln" + ("cw6cy4" + "lcrnns"));
  }

  lemma KeyText()
    ensures Text(KEY) == "3hvhttcga8z0n28jalzca0we" + "mn8fp5gaj5lncw6cy4lcrnns"
  {
    Characters();
    KeyEndText();
    hide CharOf;
    assert Text(KEY) == "3hvhtt" + ("cga8z0" + ("n28jal" + ("zca0we" + Text(KEY_END))));
    KeyStart("mn8fp5gaj5lncw6cy4lcrnns");
  }

  lemma KeyStart(rest: string)
    ensures "3hvhtt" + ("cga8z0" + ("n28jal" + ("zca0we" + rest))) == "3hvhttcga8z0n28jalzca0we" + rest
  {
    assert "3hvhtt" + ("cga8z0" + ("n28jal" + "zca0we")) == "3hvhttcga8z0n28jalzca0we";
  }

  // ----- The addresses

  /** Every symbol once: this fixes the character set. */
  lemma AllCharacters()
    ensures Encode("abcdef", [31, 30, 29, 28, 27, 26, 25, 24, 23, 22, 21, 20, 19, 18, 17, 16,
                              15, 14, 13, 12, 11, 10, 9, 8, 7, 6, 5, 4, 3, 2, 1, 0])
            == "abcdef1l7aum6echk45nj3" + "s0wdvt2fg8x9yrzpqzd3ryx"
  {
    var data := [31, 30] + Flat(DOWN);
    var w: seq<Symbol> := [2, 13, 17, 3, 4, 6];
    DownData();
    DownParts(w);
    DownTexts(w);
    DownRegister(w);
    hide *;
    EncodeIs("abcdef", [0, 0, 1], [3, 3, 3, 3, 3, 3, 0, 1, 2, 3, 4, 5, 6], data, w,
             [0, 0, 1, 3, 3, 3] + ([3, 3, 3, 0, 1, 2] + ([3, 4, 5, 6, 31, 30] + (Flat(DOWN) + w))));
  }

  lemma DownData()
    ensures [31, 30] + Flat(DOWN) == [31, 30, 29, 28, 27, 26, 25, 24, 23, 22, 21, 20, 19, 18, 17, 16,
                                      15, 14, 13, 12, 11, 10, 9, 8, 7, 6, 5, 4, 3, 2, 1, 0]
  {
    assert Flat(DOWN) == [29, 28, 27, 26, 25, 24] + ([23, 22, 21, 20, 19, 18] + ([17, 16, 15, 14, 13, 12]
      + ([11, 10, 9, 8, 7, 6] + ([5, 4, 3, 2, 1, 0] + []))));
  }

  lemma DownParts(w: seq<Symbol>)
    ensures [0, 0, 1, 3, 3, 3] + ([3, 3, 3, 0, 1, 2] + ([3, 4, 5, 6, 31, 30] + (Flat(DOWN) + w))) ==
            [0, 0, 1] + ([3, 3, 3, 3, 3, 3, 0, 1, 2, 3, 4, 5, 6] + (([31, 30] + Flat(DOWN)) + w))
  {
    hide Flat;
  }

  lemma DownTexts(w: seq<Symbol>)
    requires w == [2, 13, 17, 3, 4, 6]
    ensures HrpExpand("abcdef") == Widen([3, 3, 3, 3, 3, 3, 0, 1, 2, 3, 4, 5, 6])
    ensures "abcdef" + "1" + Chars(([31, 30] + Flat(DOWN)) + w) == "abcdef1l7aum6echk45nj3" + "s0wdvt2fg8x9yrzpqzd3ryx"
  {
    DownText();
    TextIs(DOWN);
    Characters();
    hide Flat, Text, CharOf;
    CharsConcat([31, 30], Flat(DOWN));
    CharsConcat([31, 30] + Flat(DOWN), w);
    SixChars(2, 13, 17, 3, 4, 6);
    assert Chars([31, 30]) == "l7";
    AbcdefExpanded();
    DownLiteral();
    hide Chars;
  }

  lemma DownLiteral()
    ensures "abcdef" + "1" + (("l7" + "aum6echk45nj3s0wdvt2fg8x9yrzpq") + "zd3ryx") ==
            "abcdef1l7aum6echk45nj3" + "s0wdvt2fg8x9yrzpqzd3ryx"
  {}

  lemma AbcdefExpanded()
    ensures HrpExpand("abcdef") == Widen([3, 3, 3, 3, 3, 3, 0, 1, 2, 3, 4, 5, 6])
  {
    AsciiParts();
    hide High, Low;
    ExpandedIs("abcdef", [3, 3, 3, 3, 3, 3, 0, 1, 2, 3, 4, 5, 6]);
  }

  lemma AsciiParts()
    ensures High('a') == 3 && High('b') == 3 && High('c') == 3 && High('d') == 3 && High('e') == 3 && High('f') == 3
    ensures Low('a') == 1 && Low('b') == 2 && Low('c') == 3 && Low('d') == 4 && Low('e') == 5 && Low('f') == 6
    ensures High('t') == 3 && Low('t') == 20
  {}

  lemma ExpandedIs(hrp: string, expanded: seq<Symbol>)
    requires |expanded| == 2 * |hrp| + 1 && expanded[|hrp|] == 0
    requires forall i :: 0 <= i < |hrp| ==>
               High(hrp[i]) == Wide(expanded[i]) && Low(hrp[i]) == Wide(expanded[|hrp| + 1 + i])
    ensures HrpExpand(hrp) == Widen(expanded)
  {
    assert Wide(0) == 0;
    hide High, Low, Wide;
  }

  lemma DownRegister(w: seq<Symbol>)
    requires w == [2, 13, 17, 3, 4, 6]
    ensures Run(0, Widen([0, 0, 1, 3, 3, 3] + ([3, 3, 3, 0, 1, 2] + ([3, 4, 5, 6, 31, 30] + (Flat(DOWN) + w)))))
            == 0x2bc830a3
  {
    DownValues();
    hide Run, Widen, Flat, Register;
    Six(0, 0, 0, 1, 3, 3, 3, [3, 3, 3, 0, 1, 2] + ([3, 4, 5, 6, 31, 30] + (Flat(DOWN) + w)));
    Six(0x8c63, 3, 3, 3, 0, 1, 2, [3, 4, 5, 6, 31, 30] + (Flat(DOWN) + w));
    Six(0x17456f7b, 3, 4, 5, 6, 31, 30, Flat(DOWN) + w);
    RegisterIs(0x30018f1b, DOWN, w);
    LastSix(0xcd42356, 2, 13, 17, 3, 4, 6);
  }

  /** What the two addresses share, and each of them. */
  const PAIR_TEXT := "prmkx3hvhttcga8z0n28jalzca0we" + "mn8fp5gaj5lncw6cy4lcrnns"
  const TESTNET_TAPROOT := "tb1" + PAIR_TEXT + "zpve2m"
  const MAINNET_TAPROOT := "bc1" + PAIR_TEXT + "4f6ks5"

  /** One output key on the two networks: each address decodes and is re-encoded as the
      other. */
  lemma TaprootPair()
    ensures Decode(TESTNET_TAPROOT).Some? && Decode(MAINNET_TAPROOT).Some?
    ensures ReEncodeTaprootAddress(TESTNET_TAPROOT, Mainnet) == MAINNET_TAPROOT
    ensures ReEncodeTaprootAddress(MAINNET_TAPROOT, Testnet4) == TESTNET_TAPROOT
  {
    var key := [1, 3, 27, 22, 6] + Flat(KEY);
    TestnetEncodes(key);
    MainnetEncodes(key);
    PairStarts();
    hide *;
    PairReEncoded(key, TESTNET_TAPROOT, MAINNET_TAPROOT);
  }

  lemma PairReEncoded(key: seq<Symbol>, testnet: string, mainnet: string)
    requires Encode("tb", key) == testnet && StartsWith(testnet, "tb1p") && !StartsWith(testnet, "bc1p")
    requires Encode("bc", key) == mainnet && StartsWith(mainnet, "bc1p") && !StartsWith(mainnet, "tb1p")
    requires ToLower("tb") == "tb" && ToLower("bc") == "bc"
    ensures Decode(testnet) == Some(Decoded("tb", key)) && Decode(mainnet) == Some(Decoded("bc", key))
    ensures ReEncodeTaprootAddress(testnet, Mainnet) == mainnet && ReEncodeTaprootAddress(mainnet, Testnet4) == testnet
  {
    hide Encode, Decode, ToLower, StartsWith;
    DecodeEncode("tb", key);
    DecodeEncode("bc", key);
  }

  lemma PairStarts()
    ensures StartsWith(TESTNET_TAPROOT, "tb1p") && !StartsWith(TESTNET_TAPROOT, "bc1p")
    ensures StartsWith(MAINNET_TAPROOT, "bc1p") && !StartsWith(MAINNET_TAPROOT, "tb1p")
    ensures ToLower("tb") == "tb" && ToLower("bc") == "bc"
  {
    assert TESTNET_TAPROOT[0] == 't' && MAINNET_TAPROOT[0] == 'b';
  }

  lemma PairLiterals()
    ensures "tb" + "1" + (PAIR_TEXT + "zpve2m") == TESTNET_TAPROOT
    ensures "bc" + "1" + (PAIR_TEXT + "4f6ks5") == MAINNET_TAPROOT
  {
    assert "tb" + "1" == "tb1" && "bc" + "1" == "bc1";
    hide PAIR_TEXT;
  }

  lemma TestnetEncodes(key: seq<Symbol>)
    requires key == [1, 3, 27, 22, 6] + Flat(KEY)
    ensures Encode("tb", key) == TESTNET_TAPROOT
  {
    TestnetRegister(key);
    PairExpanded();
    PairText(key, [2, 1, 12, 25, 10, 27]);
    LastCharacters();
    PairLiterals();
    hide *;
    EncodeIs("tb", [0, 1], [3, 3, 0, 20, 2], key, [2, 1, 12, 25, 10, 27],
             [0, 1, 3, 3, 0, 20] + ([2, 1, 3, 27, 22, 6] + (Flat(KEY) + [2, 1, 12, 25, 10, 27])));
  }

  lemma MainnetEncodes(key: seq<Symbol>)
    requires key == [1, 3, 27, 22, 6] + Flat(KEY)
    ensures Encode("bc", key) == MAINNET_TAPROOT
  {
    MainnetRegister(key);
    PairExpanded();
    PairText(key, [21, 9, 26, 22, 16, 20]);
    LastCharacters();
    PairLiterals();
    hide *;
    EncodeIs("bc", [0, 1], [3, 3, 0, 2, 3], key, [21, 9, 26, 22, 16, 20],
             [0, 1, 3, 3, 0, 2] + ([3, 1, 3, 27, 22, 6] + (Flat(KEY) + [21, 9, 26, 22, 16, 20])));
  }

  lemma PairExpanded()
    ensures HrpExpand("tb") == Widen([3, 3, 0, 20, 2]) && HrpExpand("bc") == Widen([3, 3, 0, 2, 3])
  {
    AsciiParts();
    hide High, Low;
    ExpandedIs("tb", [3, 3, 0, 20, 2]);
    ExpandedIs("bc", [3, 3, 0, 2, 3]);
  }

  lemma LastCharacters()
    ensures Chars([2, 1, 12, 25, 10, 27]) == "zpve2m" && Chars([21, 9, 26, 22, 16, 20]) == "4f6ks5"
  {
    Characters();
    SixChars(2, 1, 12, 25, 10, 27);
    SixChars(21, 9, 26, 22, 16, 20);
    hide Chars, CharOf;
  }

  lemma FiveChars()
    ensures Chars([1, 3, 27, 22, 6]) == "prmkx"
  {}

  lemma PairText(key: seq<Symbol>, w: seq<Symbol>)
    requires key == [1, 3, 27, 22, 6] + Flat(KEY)
    ensures Chars(key + w) == PAIR_TEXT + Chars(w)
  {
    KeyText();
    TextIs(KEY);
    hide Flat, Text, CharOf;
    CharsConcat([1, 3, 27, 22, 6], Flat(KEY));
    CharsConcat(key, w);
    FiveChars();
    hide Chars;
    PairStart("mn8fp5gaj5lncw6cy4lcrnns");
  }

  lemma PairStart(rest: string)
    ensures "prmkx" + ("3hvhttcga8z0n28jalzca0we" + rest) == "prmkx3hvhttcga8z0n28jalzca0we" + rest
  {
    assert "prmkx" + "3hvhttcga8z0n28jalzca0we" == "prmkx3hvhttcga8z0n28jalzca0we";
  }

  lemma TestnetRegister(key: seq<Symbol>)
    requires key == [1, 3, 27, 22, 6] + Flat(KEY)
    ensures var w: seq<Symbol> := [2, 1, 12, 25, 10, 27];
            var all := [0, 1, 3, 3, 0, 20] + ([2, 1, 3, 27, 22, 6] + (Flat(KEY) + w));
            all == [0, 1] + ([3, 3, 0, 20, 2] + (key + w)) && Run(0, Widen(all)) == 0x2bc830a3
  {
    var w: seq<Symbol> := [2, 1, 12, 25, 10, 27];
    KeyValues();
    hide Run, Widen, Flat, Register;
    Six(0, 0, 1, 3, 3, 0, 20, [2, 1, 3, 27, 22, 6] + (Flat(KEY) + w));
    Six(0x118c14, 2, 1, 3, 27, 22, 6, Flat(KEY) + w);
    RegisterIs(0x193d2d8, KEY, w);
    LastSix(0x36478fd6, 2, 1, 12, 25, 10, 27);
  }

  lemma MainnetRegister(key: seq<Symbol>)
    requires key == [1, 3, 27, 22, 6] + Flat(KEY)
    ensures var w: seq<Symbol> := [21, 9, 26, 22, 16, 20];
            var all := [0, 1, 3, 3, 0, 2] + ([3, 1, 3, 27, 22, 6] + (Flat(KEY) + w));
            all == [0, 1] + ([3, 3, 0, 2, 3] + (key + w)) && Run(0, Widen(all)) == 0x2bc830a3
  {
    var w: seq<Symbol> := [21, 9, 26, 22, 16, 20];
    KeyValues();
    hide Run, Widen, Flat, Register;
    Six(0, 0, 1, 3, 3, 0, 2, [3, 1, 3, 27, 22, 6] + (Flat(KEY) + w));
    Six(0x118c02, 3, 1, 3, 27, 22, 6, Flat(KEY) + w);
    RegisterIs(0x117627fc, KEY, w);
    LastSix(0x2670c5b3, 21, 9, 26, 22, 16, 20);
  }
}
