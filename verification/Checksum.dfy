/** The Bech32m checksum (BIP-350) as computed by `addressNetwork.ts`: a linear
    feedback register over 30 bits.  Everything the codec promises follows from
    three facts about one register step: it is linear over XOR, it is injective
    on 30 bits, and six 5-bit symbols fit the register without feedback. */
module Checksum {
  import opened Bits

  /** One data symbol: a value the source keeps in 0..31. */
  type Symbol = bv5

  const BECH32M_CONST: bv32 := 0x2bc830a3
  const GEN: seq<bv32> := [0x3b6a57b2, 0x26508e6d, 0x1ea119fa, 0x3d4233dd, 0x2a1462b3]

  function Top(chk: bv32): bv32 { chk >> 25 }

  function Shifted(chk: bv32): bv32 { (chk & 0x1ffffff) << 5 }

  function GenTerm(b: bv32, i: nat): bv32
    requires i < |GEN|
  {
    if (b >> i) & 1 != 0 then GEN[i] else 0
  }

  function Feedback(b: bv32, n: nat): bv32
    requires n <= |GEN|
  {
    if n == 0 then 0 else Xor(Feedback(b, n - 1), GenTerm(b, n - 1))
  }

  function Step(chk: bv32, v: bv32): bv32 {
    Xor(Xor(Shifted(chk), v), Feedback(Top(chk), |GEN|))
  }

  function Run(chk: bv32, values: seq<bv32>): bv32
    decreases |values|
  {
    if values == [] then chk else Run(Step(chk, values[0]), values[1..])
  }

  ghost predicate InRange(values: seq<bv32>) {
    forall i :: 0 <= i < |values| ==> values[i] < 0x4000_0000
  }

  /** The register never leaves 30 bits, so the signed 32-bit operators of the
      source never see a sign bit. */
  method Polymod(values: seq<bv32>) returns (chk: bv32)
    requires InRange(values)
    ensures chk == Run(1, values)
    ensures chk < 0x4000_0000
  {
    chk := 1;
    for n := 0 to |values|
      invariant chk < 0x4000_0000
      invariant Run(1, values) == Run(chk, values[n..])
    {
      StepRange(chk, values[n]);
      assert values[n..][1..] == values[n + 1..];
      chk := PolymodStep(chk, values[n]);
    }
  }

  /** The body of the outer loop. */
  method PolymodStep(before: bv32, v: bv32) returns (chk: bv32)
    ensures chk == Step(before, v)
  {
    hide Top, Shifted, Feedback, Xor, GenTerm;
    var b := before >> 25;
    chk := ((before & 0x1ffffff) << 5) ^ v;
    ghost var base := chk;
    StartStep(before, v);
    for i := 0 to |GEN|
      invariant chk == Xor(base, Feedback(b, i))
    {
      FeedbackNext(b, i);
      XorAssoc(base, Feedback(b, i), GenTerm(b, i));
      AddTerm(chk, b, i);
      if (b >> i) & 1 != 0 {
        chk := chk ^ GEN[i];
      }
    }
  }

  // ----- One register step

  lemma StartStep(before: bv32, v: bv32)
    ensures Top(before) == before >> 25
    ensures Xor(Shifted(before), v) == ((before & 0x1ffffff) << 5) ^ v
    ensures Xor(((before & 0x1ffffff) << 5) ^ v, Feedback(before >> 25, 0)) == ((before & 0x1ffffff) << 5) ^ v
  {}

  lemma AddTerm(chk: bv32, b: bv32, i: nat)
    requires i < |GEN|
    ensures Xor(chk, GenTerm(b, i)) == if (b >> i) & 1 != 0 then chk ^ GEN[i] else chk
  {
    hide Xor;
    XorIs(chk, GEN[i]);
    XorAssoc(chk, 0, 0);
  }

  lemma FeedbackNext(b: bv32, i: nat)
    requires i < |GEN|
    ensures Feedback(b, i + 1) == Xor(Feedback(b, i), GenTerm(b, i))
  {
    hide Xor, GenTerm;
  }

  /** The generator word `word` when the bit `mask` of `b` is set. */
  function Tap(b: bv32, mask: bv32, word: bv32): bv32 {
    if b & mask != 0 then word else 0
  }

  lemma FeedbackTaps(b: bv32)
    ensures Feedback(b, |GEN|) ==
            Xor(Xor(Xor(Xor(Tap(b, 1, 0x3b6a57b2), Tap(b, 2, 0x26508e6d)), Tap(b, 4, 0x1ea119fa)),
                    Tap(b, 8, 0x3d4233dd)), Tap(b, 16, 0x2a1462b3))
  {
    TapIsGenTerm(b);
    hide Tap, GenTerm, Xor;
    XorAssoc(0, GenTerm(b, 0), 0);
    XorAssoc(GenTerm(b, 0), 0, 0);
    assert Feedback(b, 1) == Xor(Feedback(b, 0), GenTerm(b, 0)) == GenTerm(b, 0);
    assert Feedback(b, 2) == Xor(Feedback(b, 1), GenTerm(b, 1));
    assert Feedback(b, 3) == Xor(Feedback(b, 2), GenTerm(b, 2));
    assert Feedback(b, 4) == Xor(Feedback(b, 3), GenTerm(b, 3));
  }

  lemma TapIsGenTerm(b: bv32)
    ensures GenTerm(b, 0) == Tap(b, 1, 0x3b6a57b2)
    ensures GenTerm(b, 1) == Tap(b, 2, 0x26508e6d)
    ensures GenTerm(b, 2) == Tap(b, 4, 0x1ea119fa)
    ensures GenTerm(b, 3) == Tap(b, 8, 0x3d4233dd)
    ensures GenTerm(b, 4) == Tap(b, 16, 0x2a1462b3)
  {}

  lemma TapLinear(a: bv32, b: bv32, mask: bv32, word: bv32)
    requires mask in {1, 2, 4, 8, 16}
    ensures Tap(Xor(a, b), mask, word) == Xor(Tap(a, mask, word), Tap(b, mask, word))
  {
    hide Xor;
    MaskParity(a, b, mask);
    XorAssoc(word, 0, 0);
    XorAssoc(word, word, 0);
    XorAssoc(0, word, 0);
    XorAssoc(0, 0, 0);
  }

  lemma MaskParity(a: bv32, b: bv32, mask: bv32)
    requires mask in {1, 2, 4, 8, 16}
    ensures (Xor(a, b) & mask != 0) == ((a & mask != 0) != (b & mask != 0))
  {}

  lemma GenTermLinear(a: bv32, b: bv32, i: nat)
    requires i < |GEN|
    ensures GenTerm(Xor(a, b), i) == Xor(GenTerm(a, i), GenTerm(b, i))
  {
    TapIsGenTerm(a);
    TapIsGenTerm(b);
    TapIsGenTerm(Xor(a, b));
    hide Tap, GenTerm, Xor;
    TapLinear(a, b, 1, 0x3b6a57b2);
    TapLinear(a, b, 2, 0x26508e6d);
    TapLinear(a, b, 4, 0x1ea119fa);
    TapLinear(a, b, 8, 0x3d4233dd);
    TapLinear(a, b, 16, 0x2a1462b3);
  }

  lemma {:induction false} FeedbackLinear(a: bv32, b: bv32, n: nat)
    requires n <= |GEN|
    ensures Feedback(Xor(a, b), n) == Xor(Feedback(a, n), Feedback(b, n))
  {
    hide Xor, GenTerm;
    if n == 0 {
      XorAssoc(0, 0, 0);
    } else {
      FeedbackLinear(a, b, n - 1);
      GenTermLinear(a, b, n - 1);
      var f, g, s, t := Feedback(a, n - 1), Feedback(b, n - 1), GenTerm(a, n - 1), GenTerm(b, n - 1);
      // f + g + (s + t), paired the other way round
      XorAssoc(f, g, Xor(s, t));
      XorAssoc(g, s, t);
      XorAssoc(s, g, t);
      XorAssoc(f, s, Xor(g, t));
    }
  }

  lemma StepRange(chk: bv32, v: bv32)
    requires v < 0x4000_0000
    ensures Step(chk, v) < 0x4000_0000
  {
    FeedbackTaps(Top(chk));
  }

  lemma ShiftLinear(a: bv32, b: bv32)
    ensures Shifted(Xor(a, b)) == Xor(Shifted(a), Shifted(b))
    ensures Top(Xor(a, b)) == Xor(Top(a), Top(b))
  {}

  /** A step is linear over XOR in the register and in the symbol together. */
  lemma StepLinear(a: bv32, b: bv32, v: bv32, w: bv32)
    ensures Step(Xor(a, b), Xor(v, w)) == Xor(Step(a, v), Step(b, w))
  {
    hide Shifted, Top, Feedback, Xor;
    ShiftLinear(a, b);
    FeedbackLinear(Top(a), Top(b), |GEN|);
    var s, t, f, g := Shifted(a), Shifted(b), Feedback(Top(a), |GEN|), Feedback(Top(b), |GEN|);
    // (s + t) + (v + w) and then (s + v) + (t + w) + (f + g), paired the other way round
    XorAssoc(s, t, Xor(v, w));
    XorAssoc(t, v, w);
    XorAssoc(v, t, w);
    XorAssoc(s, v, Xor(t, w));
    XorAssoc(Xor(s, v), Xor(t, w), Xor(f, g));
    XorAssoc(Xor(t, w), f, g);
    XorAssoc(f, Xor(t, w), g);
    XorAssoc(Xor(s, v), f, Xor(Xor(t, w), g));
  }

  /** The low five bits of the five generator words are independent, so no
      non-zero 30-bit register value is shifted to zero. */
  lemma StepKernel(c: bv32)
    requires c < 0x4000_0000
    requires Step(c, 0) == 0
    ensures c == 0
  {
    FeedbackTaps(Top(c));
    assert Feedback(Top(c), |GEN|) & 31 == 0;
    assert Top(c) == 0;
  }

  lemma StepInjective(a: bv32, b: bv32, v: bv32)
    requires a < 0x4000_0000 && b < 0x4000_0000
    requires Step(a, v) == Step(b, v)
    ensures a == b
  {
    assert Xor(a, b) < 0x4000_0000;
    assert Xor(a, b) == 0 ==> a == b;
    hide Step, Xor;
    StepLinear(a, b, v, v);
    XorAssoc(v, v, v);
    XorAssoc(Step(a, v), Step(a, v), v);
    StepKernel(Xor(a, b));
  }

  // ----- Runs of the register

  function Wide(d: Symbol): bv32 { d as bv32 }

  function Widen(data: seq<Symbol>): seq<bv32> {
    seq(|data|, i requires 0 <= i < |data| => Wide(data[i]))
  }

  const ZEROS: seq<bv32> := [0, 0, 0, 0, 0, 0]

  lemma {:induction false} RunConcat(c: bv32, xs: seq<bv32>, ys: seq<bv32>)
    ensures Run(c, xs + ys) == Run(Run(c, xs), ys)
    decreases |xs|
  {
    if xs == [] {
      assert xs + ys == ys;
    } else {
      assert (xs + ys)[1..] == xs[1..] + ys;
      RunConcat(Step(c, xs[0]), xs[1..], ys);
    }
  }

  lemma {:induction false} RunRange(c: bv32, values: seq<bv32>)
    requires c < 0x4000_0000 && InRange(values)
    ensures Run(c, values) < 0x4000_0000
    decreases |values|
  {
    hide Step;
    if values != [] {
      StepRange(c, values[0]);
      RunRange(Step(c, values[0]), values[1..]);
    }
  }

  /** Registers that differ stay different whatever the same input is. */
  lemma {:induction false} RunInjective(a: bv32, b: bv32, values: seq<bv32>)
    requires a < 0x4000_0000 && b < 0x4000_0000 && InRange(values)
    requires a != b
    ensures Run(a, values) != Run(b, values)
    decreases |values|
  {
    hide Step;
    if values != [] {
      StepRange(a, values[0]);
      StepRange(b, values[0]);
      if Step(a, values[0]) == Step(b, values[0]) {
        StepInjective(a, b, values[0]);
      }
      RunInjective(Step(a, values[0]), Step(b, values[0]), values[1..]);
    }
  }

  function XorAll(xs: seq<bv32>, ys: seq<bv32>): seq<bv32>
    requires |xs| == |ys|
  {
    seq(|xs|, i requires 0 <= i < |xs| => Xor(xs[i], ys[i]))
  }

  lemma {:induction false} RunLinear(a: bv32, b: bv32, xs: seq<bv32>, ys: seq<bv32>)
    requires |xs| == |ys|
    ensures Run(Xor(a, b), XorAll(xs, ys)) == Xor(Run(a, xs), Run(b, ys))
    decreases |xs|
  {
    hide Step, Xor;
    if xs != [] {
      StepLinear(a, b, xs[0], ys[0]);
      assert XorAll(xs, ys)[1..] == XorAll(xs[1..], ys[1..]);
      RunLinear(Step(a, xs[0]), Step(b, ys[0]), xs[1..], ys[1..]);
    }
  }

  // ----- Six symbols fit the register

  function Pack(w: seq<Symbol>): bv32
    requires |w| == 6
  {
    (w[0] as bv32 << 25) | (w[1] as bv32 << 20) | (w[2] as bv32 << 15) |
    (w[3] as bv32 << 10) | (w[4] as bv32 << 5) | w[5] as bv32
  }

  function Unpack(m: bv32): (w: seq<Symbol>)
    ensures |w| == 6
  {
    [((m >> 25) & 31) as bv5, ((m >> 20) & 31) as bv5, ((m >> 15) & 31) as bv5,
     ((m >> 10) & 31) as bv5, ((m >> 5) & 31) as bv5, (m & 31) as bv5]
  }

  lemma PackUnpack(m: bv32)
    requires m < 0x4000_0000
    ensures Pack(Unpack(m)) == m
  {}

  lemma UnpackPack(w: seq<Symbol>)
    requires |w| == 6
    ensures Pack(w) < 0x4000_0000
    ensures Unpack(Pack(w)) == w
  {
    PackParts(w[0], w[1], w[2], w[3], w[4], w[5]);
  }

  lemma PackParts(a: Symbol, b: Symbol, c: Symbol, d: Symbol, e: Symbol, f: Symbol)
    ensures var m := (a as bv32 << 25) | (b as bv32 << 20) | (c as bv32 << 15) |
                     (d as bv32 << 10) | (e as bv32 << 5) | f as bv32;
            && m < 0x4000_0000
            && ((m >> 25) & 31) as bv5 == a && ((m >> 20) & 31) as bv5 == b && ((m >> 15) & 31) as bv5 == c
            && ((m >> 10) & 31) as bv5 == d && ((m >> 5) & 31) as bv5 == e && (m & 31) as bv5 == f
  {}

  function Push(p: bv32, v: bv32): bv32 { Xor(p << 5, v) }

  ghost predicate Small(p: bv32) { p < 0x200_0000 }

  /** While the top five bits are clear a step only shifts the symbol in. */
  lemma StepSmall(p: bv32, v: bv32)
    requires Small(p)
    ensures Step(p, v) == Push(p, v)
  {
    assert Top(p) == 0;
    FeedbackTaps(0);
    assert Feedback(0, |GEN|) == 0;
    assert Shifted(p) == p << 5;
    hide Shifted, Top, Feedback, Xor;
    XorAssoc(Xor(p << 5, v), 0, 0);
  }

  lemma RunSix(c: bv32, values: seq<bv32>)
    requires |values| == 6
    ensures Run(c, values) ==
            Step(Step(Step(Step(Step(Step(c, values[0]), values[1]), values[2]), values[3]), values[4]), values[5])
  {
    hide Step;
    var v1, v2, v3, v4, v5 := values[1..], values[2..], values[3..], values[4..], values[5..];
    assert v1[1..] == v2 && v2[1..] == v3 && v3[1..] == v4 && v4[1..] == v5 && v5[1..] == [];
    var c1 := Step(c, values[0]);
    var c2 := Step(c1, values[1]);
    var c3 := Step(c2, values[2]);
    var c4 := Step(c3, values[3]);
    var c5 := Step(c4, values[4]);
    assert Run(c, values) == Run(c1, v1);
    assert Run(c1, v1) == Run(c2, v2);
    assert Run(c2, v2) == Run(c3, v3);
    assert Run(c3, v3) == Run(c4, v4);
    assert Run(c4, v4) == Run(c5, v5);
    assert Run(c5, v5) == Run(Step(c5, values[5]), []);
  }

  lemma RunPack(w: seq<Symbol>)
    requires |w| == 6
    ensures Run(0, Widen(w)) == Pack(w)
  {
    hide Step, Pack, Wide, Push, Small;
    var v := Widen(w);
    RunSix(0, v);
    PackSteps(w);
    StepSmall(0, v[0]);
    var p1 := Push(0, v[0]);
    StepSmall(p1, v[1]);
    var p2 := Push(p1, v[1]);
    StepSmall(p2, v[2]);
    var p3 := Push(p2, v[2]);
    StepSmall(p3, v[3]);
    var p4 := Push(p3, v[3]);
    StepSmall(p4, v[4]);
    StepSmall(Push(p4, v[4]), v[5]);
  }

  lemma PackSteps(w: seq<Symbol>)
    requires |w| == 6
    ensures var p1 := Push(0, Wide(w[0])); var p2 := Push(p1, Wide(w[1])); var p3 := Push(p2, Wide(w[2]));
            var p4 := Push(p3, Wide(w[3])); var p5 := Push(p4, Wide(w[4]));
            && Small(0) && Small(p1) && Small(p2) && Small(p3) && Small(p4) && Small(p5)
            && Push(p5, Wide(w[5])) == Pack(w)
  {}

  // ----- Steps on given symbols

  /** A register step written out. */
  function OneStep(c: bv32, v: bv32): bv32 {
    var t0: bv32 := if c & 0x200_0000 != 0 then 0x3b6a57b2 else 0;
    var t1: bv32 := if c & 0x400_0000 != 0 then 0x26508e6d else 0;
    var t2: bv32 := if c & 0x800_0000 != 0 then 0x1ea119fa else 0;
    var t3: bv32 := if c & 0x1000_0000 != 0 then 0x3d4233dd else 0;
    var t4: bv32 := if c & 0x2000_0000 != 0 then 0x2a1462b3 else 0;
    (((c & 0x1ffffff) << 5) ^ v) ^ ((((t0 ^ t1) ^ t2) ^ t3) ^ t4)
  }

  lemma TopBits(c: bv32)
    ensures Tap(Top(c), 1, 0x3b6a57b2) == if c & 0x200_0000 != 0 then 0x3b6a57b2 else 0
    ensures Tap(Top(c), 2, 0x26508e6d) == if c & 0x400_0000 != 0 then 0x26508e6d else 0
    ensures Tap(Top(c), 4, 0x1ea119fa) == if c & 0x800_0000 != 0 then 0x1ea119fa else 0
    ensures Tap(Top(c), 8, 0x3d4233dd) == if c & 0x1000_0000 != 0 then 0x3d4233dd else 0
    ensures Tap(Top(c), 16, 0x2a1462b3) == if c & 0x2000_0000 != 0 then 0x2a1462b3 else 0
  {}

  function SixSteps(c: bv32, values: seq<bv32>): bv32
    requires |values| >= 6
  {
    OneStep(OneStep(OneStep(OneStep(OneStep(OneStep(c, values[0]), values[1]), values[2]), values[3]), values[4]),
      values[5])
  }

  lemma StepIs(c: bv32, v: bv32)
    ensures Step(c, v) == OneStep(c, v)
  {
    FeedbackTaps(Top(c));
    TopBits(c);
    hide Tap, Top, Feedback;
  }

  lemma SixOnce(c: bv32, values: seq<bv32>)
    requires |values| == 6
    ensures Run(c, values) == SixSteps(c, values)
  {
    RunSix(c, values);
    forall d, v
      ensures Step(d, v) == OneStep(d, v)
    {
      StepIs(d, v);
    }
    hide Step, OneStep, Run;
  }

  /** The register starts as if a one had been shifted into an empty one. */
  lemma {:induction false} PaddedFront(pad: seq<bv32>, values: seq<bv32>)
    requires pad != [] && pad[|pad| - 1] == 1 && forall i :: 0 <= i < |pad| - 1 ==> pad[i] == 0
    ensures Run(0, pad + values) == Run(1, values)
    decreases |pad|
  {
    assert (pad + values)[1..] == pad[1..] + values;
    StepSmall(0, pad[0]);
    hide Step;
    if |pad| > 1 {
      PaddedFront(pad[1..], values);
    }
  }

  /** Six symbols are XORed into the register that six zeros would leave. */
  lemma RunSixSymbols(c: bv32, w: seq<Symbol>)
    requires |w| == 6
    ensures Run(c, Widen(w)) == Xor(Run(c, ZEROS), Pack(w))
  {
    hide Step, Pack;
    RunLinear(c, 0, ZEROS, Widen(w));
    RunPack(w);
    assert Xor(c, 0) == c;
    forall i | 0 <= i < 6
      ensures Xor(ZEROS[i], Widen(w)[i]) == Widen(w)[i]
    {
      XorAssoc(Widen(w)[i], 0, 0);
      XorAssoc(0, Widen(w)[i], 0);
    }
    assert XorAll(ZEROS, Widen(w)) == Widen(w);
  }

  /** Exactly one choice of six symbols after `values` drives the register to
      the Bech32m constant, and it is the one `createChecksum` computes. */
  lemma ChecksumUnique(values: seq<bv32>, w: seq<Symbol>)
    requires InRange(values) && |w| == 6
    ensures Run(1, values + Widen(w)) == BECH32M_CONST <==>
            w == Unpack(Xor(Run(1, values + ZEROS), BECH32M_CONST))
  {
    hide Step, Pack, Unpack, Run;
    var z := Run(1, values + ZEROS);
    RunConcat(1, values, Widen(w));
    RunConcat(1, values, ZEROS);
    RunSixSymbols(Run(1, values), w);
    RunRange(1, values + ZEROS);
    assert Run(1, values + Widen(w)) == Xor(z, Pack(w));
    UnpackPack(w);
    XorRange(z, BECH32M_CONST);
    PackUnpack(Xor(z, BECH32M_CONST));
    XorCancel(z, Pack(w));
    XorCancel(z, BECH32M_CONST);
  }

  /** A burst confined to six consecutive symbols always changes the checksum. */
  lemma BurstChangesChecksum(before: seq<bv32>, w: seq<Symbol>, x: seq<Symbol>, after: seq<bv32>)
    requires InRange(before) && InRange(after) && |w| == |x| == 6
    requires w != x
    ensures Run(1, before + Widen(w) + after) != Run(1, before + Widen(x) + after)
  {
    hide Step, Pack, Unpack, Run;
    var c := Run(1, before);
    RunConcat(1, before, Widen(w));
    RunConcat(1, before, Widen(x));
    RunConcat(1, before + Widen(w), after);
    RunConcat(1, before + Widen(x), after);
    RunSixSymbols(c, w);
    RunSixSymbols(c, x);
    UnpackPack(w);
    UnpackPack(x);
    RunRange(1, before + Widen(w));
    RunRange(1, before + Widen(x));
    XorCancel(Run(c, ZEROS), Pack(w));
    XorCancel(Run(c, ZEROS), Pack(x));
    RunInjective(Run(c, Widen(w)), Run(c, Widen(x)), after);
  }
}
