/** Coin selection of an inscription send (`inscription-coin-select.ts`). */
module InscriptionSend {
  import opened Options
  import opened Strings
  import opened Utxos

  datatype SelectError = InscriptionNotFound | InsufficientBtc(haveSats: nat, needSats: int)

  datatype Selection =
    | Selected(inscribedUtxo: Utxo, btcInputs: seq<Utxo>, inscribedValueSats: nat, totalInputSats: nat)
    | Failed(error: SelectError)

  /** `txid:vout`, kept as the pair it is printed from. */
  datatype Outpoint = Outpoint(txid: string, vout: nat)

  function OutpointOf(u: Utxo): Outpoint {
    Outpoint(u.txid, u.vout)
  }

  /** What `Number(text)` gives when that is an integer. */
  type ToInteger = string -> Option<int>

  /** The text before the first ':' at or after `from`. */
  function PartFrom(s: string, from: nat): string
    requires from <= |s|
  {
    var colon := IndexOf(s[from..], ':');
    if colon == -1 then s[from..] else s[from..][..colon]
  }

  /** "txid:vout:offset", or just its first two parts; `None` when it cannot be read. */
  function OutpointFromSatpoint(satpoint: Option<string>, toInteger: ToInteger): Option<Outpoint> {
    if satpoint == None || IndexOf(satpoint.value, ':') == -1 then None
    else
      var s := satpoint.value;
      var txid := PartFrom(s, 0);
      var vout := toInteger(PartFrom(s, |txid| + 1));
      if txid == "" || vout == None || vout.value < 0 then None else Some(Outpoint(txid, vout.value))
  }

  lemma FirstPart(text: string, rest: string)
    requires ':' !in text && (rest == "" || rest[0] == ':')
    ensures PartFrom(text + rest, 0) == text
  {
    var s := text + rest;
    assert s[0..] == s;
    hide IndexOf;
    assert rest != "" ==> s[|text|] == ':';
    assert forall i :: 0 <= i < |text| ==> s[i] == text[i];
    var colon := IndexOf(s, ':');
    assert rest == "" ==> s == text;
    assert colon == if rest == "" then -1 else |text|;
  }

  /** A satpoint written from an outpoint is read as that outpoint, whatever offset
      follows; a txid that is missing and a vout that is no natural number are not. */
  lemma SatpointRead(txid: string, vout: string, tail: string, toInteger: ToInteger)
    requires ':' !in txid && ':' !in vout && (tail == "" || tail[0] == ':')
    ensures OutpointFromSatpoint(Some(txid + ":" + vout + tail), toInteger) ==
            if txid == "" || toInteger(vout) == None || toInteger(vout).value < 0 then None
            else Some(Outpoint(txid, toInteger(vout).value))
  {
    var s := txid + ":" + vout + tail;
    assert s == txid + (":" + vout + tail);
    FirstPart(txid, ":" + vout + tail);
    FirstPart(vout, tail);
    assert s[|txid| + 1..] == vout + tail;
    assert (vout + tail)[0..] == vout + tail;
    assert s[|txid|] == ':';
    hide IndexOf;
  }

  predicate CarriesId(u: Utxo, inscriptionId: string) {
    u.inscriptions.Some? && inscriptionId in u.inscriptions.value
  }

  function FindByOutpoint(us: seq<Utxo>, o: Outpoint): Option<Utxo> {
    if us == [] then None
    else if OutpointOf(us[0]) == o then Some(us[0])
    else FindByOutpoint(us[1..], o)
  }

  function FindById(us: seq<Utxo>, inscriptionId: string): Option<Utxo> {
    if us == [] then None
    else if CarriesId(us[0], inscriptionId) then Some(us[0])
    else FindById(us[1..], inscriptionId)
  }

  /** The outpoint of a readable satpoint decides first, then the inscription id. */
  function FindInscribedUtxo(us: seq<Utxo>, inscriptionId: string, outpoint: Option<Outpoint>): Option<Utxo> {
    var byOutpoint := if outpoint.Some? then FindByOutpoint(us, outpoint.value) else None;
    if byOutpoint.Some? then byOutpoint else FindById(us, inscriptionId)
  }

  lemma {:induction false} FindByOutpointFinds(us: seq<Utxo>, o: Outpoint)
    ensures FindByOutpoint(us, o).Some? <==> exists u :: u in us && OutpointOf(u) == o
    ensures FindByOutpoint(us, o).Some? ==>
            FindByOutpoint(us, o).value in us && OutpointOf(FindByOutpoint(us, o).value) == o
  {
    if us != [] {
      FindByOutpointFinds(us[1..], o);
      assert us == [us[0]] + us[1..];
      assert forall u :: u in us <==> u == us[0] || u in us[1..];
    }
  }

  lemma {:induction false} FindByIdFinds(us: seq<Utxo>, id: string)
    ensures FindById(us, id).Some? <==> exists u :: u in us && CarriesId(u, id)
    ensures FindById(us, id).Some? ==> FindById(us, id).value in us && CarriesId(FindById(us, id).value, id)
  {
    if us != [] {
      FindByIdFinds(us[1..], id);
      assert us == [us[0]] + us[1..];
      assert forall u :: u in us <==> u == us[0] || u in us[1..];
    }
  }

  /** The output sent is one the address holds, at the outpoint given or carrying
      the id; there is none exactly when neither can be found. */
  lemma InscribedUtxoIsRight(us: seq<Utxo>, id: string, outpoint: Option<Outpoint>)
    ensures var found := FindInscribedUtxo(us, id, outpoint);
            && (found.Some? <==> exists u :: u in us && (CarriesId(u, id) || outpoint == Some(OutpointOf(u))))
            && (found.Some? ==> found.value in us
                                && if exists u :: u in us && outpoint == Some(OutpointOf(u))
                                   then outpoint == Some(OutpointOf(found.value)) else CarriesId(found.value, id))
  {
    FindByIdFinds(us, id);
    if outpoint.Some? {
      FindByOutpointFinds(us, outpoint.value);
    }
  }

  function NotAt(us: seq<Utxo>, o: Outpoint): seq<Utxo> {
    if us == [] then []
    else if OutpointOf(us[0]) != o then [us[0]] + NotAt(us[1..], o)
    else NotAt(us[1..], o)
  }

  lemma {:induction false} NotAtMembers(us: seq<Utxo>, o: Outpoint, u: Utxo)
    ensures u in NotAt(us, o) <==> u in us && OutpointOf(u) != o
    ensures Sum(NotAt(us, o)) <= Sum(us)
  {
    if us != [] {
      NotAtMembers(us[1..], o, u);
      assert us == [us[0]] + us[1..];
    }
  }

  /** The outputs a fee may be taken from. */
  function FeePool(utxos: seq<Utxo>, inscribed: Utxo): seq<Utxo> {
    NotAt(Spendable(utxos), OutpointOf(inscribed))
  }

  /** No fee input is protected or is the inscribed output itself. */
  lemma FeePoolIsSafe(utxos: seq<Utxo>, inscribed: Utxo, u: Utxo)
    ensures u in FeePool(utxos, inscribed) <==>
            u in utxos && !IsProtected(u) && OutpointOf(u) != OutpointOf(inscribed)
  {
    hide IsProtected;
    NotAtMembers(Spendable(utxos), OutpointOf(inscribed), u);
    SpendableMembers(utxos, u);
  }

  /** The loop that pulls fee inputs, largest first, until the fee is covered. */
  method CoverFee(pool: seq<Utxo>, feeSats: int) returns (btcInputs: seq<Utxo>, btcInputSats: nat)
    ensures btcInputSats == Sum(btcInputs)
    ensures btcInputSats >= feeSats <==> Sum(pool) >= feeSats
    ensures btcInputSats >= feeSats ==> FewestReaching(btcInputs, pool, feeSats)
  {
    var candidates := SortDescending(pool);
    SortKeeps(pool);
    hide Sum, SortDescending;
    SumNone();
    btcInputs := [];
    btcInputSats := 0;
    var i := 0;
    while i < |candidates|
      invariant 0 <= i <= |candidates|
      invariant btcInputs == candidates[..i] && btcInputSats == Sum(btcInputs)
      invariant i > 0 ==> Sum(candidates[..i - 1]) < feeSats
    {
      if btcInputSats >= feeSats {
        break;
      }
      assert candidates[..i + 1] == candidates[..i] + [candidates[i]];
      SumConcat(btcInputs, [candidates[i]]);
      SumOne(candidates[i]);
      btcInputs := btcInputs + [candidates[i]];
      btcInputSats := btcInputSats + candidates[i].value;
      i := i + 1;
    }
    PrefixSum(candidates, i, |candidates|);
    assert candidates[..|candidates|] == candidates;
    if btcInputSats >= feeSats {
      PrefixIsFewest(pool, candidates, i, feeSats);
    }
  }

  method SelectUtxosForInscriptionSend(utxos: seq<Utxo>, inscriptionId: string, satpoint: Option<string>,
                                       toInteger: ToInteger, feeSats: int)
    returns (r: Selection)
    ensures var found := FindInscribedUtxo(utxos, inscriptionId, OutpointFromSatpoint(satpoint, toInteger));
            && (r == Failed(InscriptionNotFound) <==> found == None)
            && (found.Some? ==>
                  && (r.Failed? <==> Sum(FeePool(utxos, found.value)) < feeSats)
                  && (r.Failed? ==> r.error == InsufficientBtc(Sum(Spendable(utxos)), feeSats))
                  && (r.Selected? ==>
                        && r.inscribedUtxo == found.value && r.inscribedValueSats == found.value.value
                        && r.totalInputSats == found.value.value + Sum(r.btcInputs) >= found.value.value + feeSats
                        && FewestReaching(r.btcInputs, FeePool(utxos, found.value), feeSats)))
  {
    hide OutpointFromSatpoint;
    var found := FindInscribedUtxo(utxos, inscriptionId, OutpointFromSatpoint(satpoint, toInteger));
    if found == None {
      return Failed(InscriptionNotFound);
    }
    hide Sum, Spendable, NotAt, FindInscribedUtxo, FewestReaching;
    var inscribed := found.value;
    var spendable, _, spendableSats, _ := PartitionByProtection(utxos);
    var pool := NotAt(spendable, OutpointOf(inscribed));
    var btcInputs, btcInputSats := CoverFee(pool, feeSats);
    if btcInputSats < feeSats {
      return Failed(InsufficientBtc(spendableSats, feeSats));
    }
    return Selected(inscribed, btcInputs, inscribed.value, inscribed.value + btcInputSats);
  }

  /** An outpoint names one output of the chain. */
  ghost predicate DistinctOutpoints(us: seq<Utxo>) {
    forall i, j :: 0 <= i < j < |us| ==> OutpointOf(us[i]) != OutpointOf(us[j])
  }

  /** The failure reports every unprotected sat as available, the inscribed output's own
      included.  So it reports having at least what it needs if and only if nothing
      protects that output and its value makes up for what the fee pool lacks. */
  lemma ReportedHaveCanCover(utxos: seq<Utxo>, inscribed: Utxo, feeSats: int)
    requires DistinctOutpoints(utxos) && inscribed in utxos
    requires Sum(FeePool(utxos, inscribed)) < feeSats
    ensures Sum(Spendable(utxos)) >= feeSats <==>
            !IsProtected(inscribed) && Sum(FeePool(utxos, inscribed)) + inscribed.value >= feeSats
  {
    SplitAt(Spendable(utxos), OutpointOf(inscribed));
    SpendableAt(utxos, inscribed);
    hide IsProtected, Sum;
    SumOne(inscribed);
    SumNone();
  }

  /** Only the inscribed output itself is at its outpoint. */
  lemma {:induction false} SpendableAt(us: seq<Utxo>, u: Utxo)
    requires DistinctOutpoints(us) && u in us
    ensures At(Spendable(us), OutpointOf(u)) == if IsProtected(u) then [] else [u]
  {
    hide IsProtected;
    var rest := us[1..];
    assert forall i :: 0 <= i < |rest| ==> rest[i] == us[i + 1];
    if us[0] == u {
      NoneSpendableAt(rest, OutpointOf(u));
    } else {
      SpendableAt(rest, u);
    }
  }

  lemma {:induction false} NoneSpendableAt(us: seq<Utxo>, o: Outpoint)
    requires forall i :: 0 <= i < |us| ==> OutpointOf(us[i]) != o
    ensures At(Spendable(us), o) == []
  {
    hide IsProtected;
    if us != [] {
      NoneSpendableAt(us[1..], o);
    }
  }

  /** It happens: the only output, not marked as inscribed by the indexer, is the one at
      the satpoint; the send fails reporting 1000 sats where 500 are needed. */
  method ReportedHaveExample(toInteger: ToInteger) returns (r: Selection)
    requires toInteger("0") == Some(0)
    ensures r == Failed(InsufficientBtc(1000, 500))
  {
    var u := Utxo("a", 0, 1000, None, None, None);
    SatpointRead("a", "0", ":0", toInteger);
    assert "a" + ":" + "0" + ":0" == "a:0:0";
    assert [u][1..] == [];
    SumOne(u);
    assert Spendable([u]) == [u] && Sum([u]) == 1000;
    assert FindByOutpoint([u], Outpoint("a", 0)) == Some(u);
    assert NotAt([u], Outpoint("a", 0)) == NotAt([], Outpoint("a", 0)) == [];
    assert FeePool([u], u) == [];
    r := SelectUtxosForInscriptionSend([u], "i", Some("a:0:0"), toInteger, 500);
  }

  function At(us: seq<Utxo>, o: Outpoint): seq<Utxo> {
    if us == [] then []
    else if OutpointOf(us[0]) == o then [us[0]] + At(us[1..], o)
    else At(us[1..], o)
  }

  lemma {:induction false} SplitAt(us: seq<Utxo>, o: Outpoint)
    ensures Sum(us) == Sum(At(us, o)) + Sum(NotAt(us, o))
  {
    if us != [] {
      SplitAt(us[1..], o);
      SumConcat([us[0]], At(us[1..], o));
      SumConcat([us[0]], NotAt(us[1..], o));
    }
  }
}
