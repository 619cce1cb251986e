/** Coin selection and fee arithmetic of a plain BTC send (`btc-psbt.ts`). */
module PlainSend {
  import opened Options
  import opened Utxos

  datatype SelectError = InsufficientSpendableBtc | InsufficientBalance

  datatype Selection = Selected(selected: seq<Utxo>, totalInput: nat) | Failed(error: SelectError)

  /** Coin selection: it succeeds exactly when the unprotected outputs suffice, then
      with the fewest outputs possible, and tells the two failures apart. */
  method SelectUtxos(utxos: seq<Utxo>, targetSats: int, feeSats: int) returns (r: Selection)
    ensures r.Selected? <==> Sum(Spendable(utxos)) >= targetSats + feeSats
    ensures r.Selected? ==>
              && multiset(r.selected) <= multiset(Spendable(utxos))
              && r.totalInput == Sum(r.selected) >= targetSats + feeSats
              && (targetSats + feeSats > 0 ==>
                    r.selected != [] && FewestReaching(r.selected, Spendable(utxos), targetSats + feeSats))
              && (targetSats + feeSats <= 0 ==> |r.selected| == if Spendable(utxos) == [] then 0 else 1)
    ensures r.Selected? ==> r.selected == Largest(Spendable(utxos), targetSats + feeSats)
    ensures r.Failed? ==>
              (r.error == InsufficientSpendableBtc <==>
               Sum(ProtectedOnly(utxos)) > 0 && Sum(utxos) >= targetSats + feeSats)
  {
    var spendable, protected, spendableSats, protectedSats := PartitionByProtection(utxos);
    PartitionIsWhole(utxos);
    var needed := targetSats + feeSats;
    hide Spendable, ProtectedOnly, Sum, Largest, FewestReaching;
    var selected, total := TakeLargest(spendable, needed);
    LargestReach(spendable, needed);
    if total < needed {
      if protectedSats > 0 && spendableSats + protectedSats >= needed {
        return Failed(InsufficientSpendableBtc);
      }
      return Failed(InsufficientBalance);
    }
    LargestIsFewest(spendable, needed);
    return Selected(selected, total);
  }

  /** The loop that takes the largest outputs until the need is reached. */
  method TakeLargest(pool: seq<Utxo>, needed: int) returns (selected: seq<Utxo>, total: nat)
    ensures selected == Largest(pool, needed) && total == Sum(selected)
  {
    var sorted := SortDescending(pool);
    hide SortDescending, Sum, Largest;
    SumNone();
    selected := [];
    total := 0;
    var i := 0;
    while i < |sorted|
      invariant 0 <= i <= |sorted|
      invariant selected == sorted[..i] && total == Sum(selected)
      invariant i > 0 ==> total < needed
    {
      assert sorted[..i + 1] == sorted[..i] + [sorted[i]];
      SumConcat(selected, [sorted[i]]);
      SumOne(sorted[i]);
      selected := selected + [sorted[i]];
      total := total + sorted[i].value;
      i := i + 1;
      assert i > 1 ==> Sum(sorted[..i - 1]) < needed;
      if total >= needed {
        break;
      }
    }
    if i > 1 && total < needed {
      PrefixSum(sorted, i - 1, i);
    }
    TakenIsLargest(pool, needed, i);
  }

  // ----- The transaction

  const MIN_FALLBACK_FEE_RATE := 5.0

  datatype Output = Pay(sats: nat) | Change(sats: nat)

  /** What the returned PSBT spends and creates, and what the result reports. */
  datatype Built = Built(inputs: seq<Utxo>, outputs: seq<Output>, amountSats: nat, feeSats: int,
                         feeRate: real, changeSats: nat, inputCount: nat)

  datatype BuildResult = Success(built: Built) | NoUtxos | Insufficient(error: SelectError)

  function Ceil(x: real): (n: int)
    ensures x <= n as real < x + 1.0
  {
    -((-x).Floor)
  }

  /** Approximate vsize of a P2TR-only transaction. */
  function EstimateTxSize(inputCount: nat, outputCount: nat): real {
    10.5 + inputCount as real * 57.5 + outputCount as real * 43.0
  }

  function FeeFor(inputCount: nat, feeRate: real): int {
    Ceil(EstimateTxSize(inputCount, 2) * feeRate)
  }

  /** A missing or zero rate is replaced by the indexer's estimate, if any. */
  function EffectiveRate(asked: Option<real>, estimate: Option<real>): real {
    if asked.Some? && asked.value != 0.0 then asked.value
    else if estimate.Some? then estimate.value
    else MIN_FALLBACK_FEE_RATE
  }

  /** The rate asked for unless that is missing or zero; then the estimate; and without
      one, five sats per vbyte. */
  ghost predicate RateIsRight(rate: real, asked: Option<real>, estimate: Option<real>) {
    && (asked.Some? && asked != Some(0.0) ==> asked == Some(rate))
    && (asked in {None, Some(0.0)} && estimate.Some? ==> estimate == Some(rate))
    && (asked in {None, Some(0.0)} && estimate == None ==> rate == 5.0)
  }

  lemma RateIsChosen(asked: Option<real>, estimate: Option<real>)
    ensures RateIsRight(EffectiveRate(asked, estimate), asked, estimate)
  {}

  /** The fee for `n` inputs and two outputs: 57.5 vbytes each and 96.5 for the rest, at
      the rate, rounded up. */
  lemma FeeIsRoundedUp(n: nat, rate: real)
    ensures var exact := (57.5 * n as real + 96.5) * rate;
            exact <= FeeFor(n, rate) as real < exact + 1.0
  {
    assert EstimateTxSize(n, 2) == 57.5 * n as real + 96.5;
  }

  function OutputSum(outputs: seq<Output>): nat {
    if outputs == [] then 0 else outputs[0].sats + OutputSum(outputs[1..])
  }

  /** What the miner gets: inputs less outputs. */
  function PaidFee(b: Built): int {
    Sum(b.inputs) - OutputSum(b.outputs)
  }

  method BuildUnsignedPsbt(utxos: seq<Utxo>, amountSats: nat, asked: Option<real>, estimate: Option<real>,
                           changeDust: nat)
    returns (r: BuildResult)
    ensures r.NoUtxos? <==> utxos == []
    ensures var rate := EffectiveRate(asked, estimate);
            r.Success? <==> utxos != [] && Sum(Spendable(utxos)) >= amountSats + FeeFor(1, rate)
    ensures r.Insufficient? ==>
              (r.error == InsufficientSpendableBtc <==>
               Sum(ProtectedOnly(utxos)) > 0
               && Sum(utxos) >= amountSats + FeeFor(1, EffectiveRate(asked, estimate)))
    ensures r.Success? ==>
              && IsBuild(r.built, utxos, amountSats, EffectiveRate(asked, estimate), changeDust)
              && (amountSats + FeeFor(1, EffectiveRate(asked, estimate)) > 0 ==>
                    FewestReaching(r.built.inputs, Spendable(utxos),
                      amountSats + FeeFor(1, EffectiveRate(asked, estimate))))
    ensures r.Success? ==> RateIsRight(r.built.feeRate, asked, estimate)
  {
    RateIsChosen(asked, estimate);
    hide RateIsRight, Sum, Spendable, ProtectedOnly, FewestReaching, FeeFor, EffectiveRate, Largest;
    if utxos == [] {
      return NoUtxos;
    }
    var feeRate := EffectiveRate(asked, estimate);
    var estimatedFee := FeeFor(1, feeRate);
    var selection := SelectUtxos(utxos, amountSats, estimatedFee);
    if selection.Failed? {
      return Insufficient(selection.error);
    }
    var selected, totalInput := selection.selected, selection.totalInput;
    var actualFee := FeeFor(|selected|, feeRate);
    var changeSats := totalInput - amountSats - actualFee;
    var inputs: seq<Utxo> := [];
    for i := 0 to |selected|
      invariant inputs == selected[..i]
    {
      inputs := inputs + [selected[i]];
    }
    assert selected[..|selected|] == selected;
    var outputs := [Pay(amountSats)];
    if changeSats > changeDust {
      outputs := outputs + [Change(changeSats)];
    }
    return Success(Built(inputs, outputs, amountSats, actualFee, feeRate,
                         if changeSats > changeDust then changeSats else 0, |selected|));
  }

  /** The inputs: the largest unprotected outputs, as few as cover the amount and the
      fee for one input. */
  function InputsFor(utxos: seq<Utxo>, amountSats: nat, rate: real): seq<Utxo> {
    Largest(Spendable(utxos), amountSats + FeeFor(1, rate))
  }

  /** What is left of them after the amount and the fee for their number. */
  function ChangeFor(utxos: seq<Utxo>, amountSats: nat, rate: real): int {
    var inputs := InputsFor(utxos, amountSats, rate);
    Sum(inputs) - amountSats - FeeFor(|inputs|, rate)
  }

  /** The transaction built from `utxos`: it reports the fee for its real inputs, and
      has a change output only above the dust threshold. */
  ghost predicate IsBuild(b: Built, utxos: seq<Utxo>, amountSats: nat, rate: real, changeDust: nat) {
    && Sum(Spendable(utxos)) >= amountSats + FeeFor(1, rate)
    && b.inputs == InputsFor(utxos, amountSats, rate)
    && b.inputCount == |b.inputs| && b.amountSats == amountSats && b.feeRate == rate
    && b.feeSats == FeeFor(|b.inputs|, rate)
    && var change := ChangeFor(utxos, amountSats, rate);
       if change > changeDust then b.changeSats == change && b.outputs == [Pay(amountSats), Change(change)]
       else b.changeSats == 0 && b.outputs == [Pay(amountSats)]
  }

  /** No input carries an inscription, runes or runes at risk. */
  lemma SpentAreBare(b: Built, utxos: seq<Utxo>, amountSats: nat, rate: real, changeDust: nat, u: Utxo)
    requires IsBuild(b, utxos, amountSats, rate, changeDust) && u in b.inputs
    ensures u in utxos && (u.inscriptions.Some? ==> u.inscriptions.value == [])
    ensures NothingLocked(u.runes) && NothingLocked(u.riskyRunes)
  {
    hide Sum, FeeFor, NothingLocked, Spendable, Largest;
    LargestReach(Spendable(utxos), amountSats + FeeFor(1, rate));
    assert u in multiset(b.inputs);
    SpendableAreBare(utxos, u);
  }

  lemma FeeGrows(j: nat, k: nat, rate: real)
    requires j <= k && rate >= 0.0
    ensures 0 <= FeeFor(j, rate) <= FeeFor(k, rate)
  {
    var a, b := EstimateTxSize(j, 2), EstimateTxSize(k, 2);
    assert a <= b;
    RealMonotone(a, b, rate);
    RealMonotone(0.0, a, rate);
  }

  lemma RealMonotone(a: real, b: real, r: real)
    requires a <= b && r >= 0.0
    ensures a * r <= b * r
  {}

  /** Value is conserved: inputs = amount + change + paid fee.  With a rate that is
      not negative the paid fee is at least the one-input estimate and at most the
      reported fee plus the dust threshold. */
  lemma ValueConserved(b: Built, utxos: seq<Utxo>, amountSats: nat, rate: real, changeDust: nat)
    requires IsBuild(b, utxos, amountSats, rate, changeDust)
    ensures Sum(b.inputs) == amountSats + b.changeSats + PaidFee(b)
    ensures rate >= 0.0 ==> FeeFor(1, rate) <= PaidFee(b) <= b.feeSats + changeDust
  {
    hide Sum, Largest, FeeFor, Spendable;
    OutputSums(b.outputs);
    LargestReach(Spendable(utxos), amountSats + FeeFor(1, rate));
    SumNone();
    if rate >= 0.0 {
      if b.inputs != [] {
        FeeGrows(1, |b.inputs|, rate);
      } else {
        FeeGrows(0, 1, rate);
      }
    }
  }

  lemma OutputSums(outputs: seq<Output>)
    ensures |outputs| == 1 ==> OutputSum(outputs) == outputs[0].sats
    ensures |outputs| == 2 ==> OutputSum(outputs) == outputs[0].sats + outputs[1].sats
  {
    if |outputs| == 2 {
      assert outputs[1..][1..] == [];
    }
  }

  /** The reported fee is the fee paid exactly when what the inputs leave is above the
      dust threshold or nothing at all.  With less than that, but something, more is
      paid than reported; and less is paid exactly when the outputs chosen for the
      one-input estimate fall short of the amount and the fee for their number -- then
      by at most the growth of the estimate, and never with a single input. */
  lemma ReportedFeeIsPaid(b: Built, utxos: seq<Utxo>, amountSats: nat, rate: real, changeDust: nat)
    requires IsBuild(b, utxos, amountSats, rate, changeDust)
    ensures var inputs := InputsFor(utxos, amountSats, rate); var change := ChangeFor(utxos, amountSats, rate);
      && (PaidFee(b) == b.feeSats <==> change > changeDust || change == 0)
      && (PaidFee(b) > b.feeSats <==> 0 < change <= changeDust)
      && (PaidFee(b) < b.feeSats <==> Sum(inputs) < amountSats + FeeFor(|inputs|, rate))
      && (PaidFee(b) < b.feeSats ==>
            b.feeSats - PaidFee(b) <= FeeFor(|inputs|, rate) - FeeFor(1, rate) && |inputs| != 1)
  {
    hide Sum, Largest, FeeFor, Spendable;
    OutputSums(b.outputs);
    LargestReach(Spendable(utxos), amountSats + FeeFor(1, rate));
  }

  /** Such a shortfall happens: outputs of 5154 and 1 sats sending 5001 sats at one
      sat per vbyte pay 154 sats where 212 are reported. */
  method FeeShortfallExample() returns (r: BuildResult)
    ensures r.Success? && r.built.inputCount == 2 && r.built.outputs == [Pay(5001)]
    ensures PaidFee(r.built) == 154 && r.built.feeSats == 212
  {
    var a, c := Utxo("a", 0, 5154, None, None, None), Utxo("c", 0, 1, None, None, None);
    TwoPlain(a, c);
    LargestOfTwo(a, c, 5155);
    assert EstimateTxSize(1, 2) == 154.0 && EstimateTxSize(2, 2) == 211.5;
    assert FeeFor(1, 1.0) == 154 && FeeFor(2, 1.0) == 212;
    r := BuildUnsignedPsbt([a, c], 5001, Some(1.0), None, 330);
    OutputSums(r.built.outputs);
  }

  lemma TwoPlain(a: Utxo, c: Utxo)
    requires !IsProtected(a) && !IsProtected(c)
    ensures Spendable([a, c]) == [a, c] && Sum([a, c]) == a.value + c.value
  {
    hide IsProtected;
    assert [a, c][1..] == [c] && [c][1..] == [];
    assert Spendable([c]) == [c] && [a] + [c] == [a, c];
    SumOne(a);
    SumOne(c);
    SumConcat([a], [c]);
  }

  lemma LargestOfTwo(a: Utxo, c: Utxo, need: int)
    requires a.value >= c.value && a.value < need
    ensures Largest([a, c], need) == [a, c]
  {
    assert [a, c][1..] == [c] && [c][1..] == [];
    assert SortDescending([c]) == [c];
    assert SortDescending([a, c]) == [a] + [c] == [a, c];
    SumOne(a);
    assert [a, c][..1] == [a];
    assert LeastCount([a, c], need, 2);
    LeastCountIsUnique([a, c], need, 2);
  }
}
