/** From a wallet's signature text to the 64-byte Schnorr signature, and the
    adapter that writes such a text for the swap engine. */
module WalletSignature {
  import opened Options
  import opened WitnessStack
  import opened ByteText

  /** `SignatureUtil.adjustSignature`, which is not part of this model: it may
      refuse (`None`); what is assumed of it is that it keeps 64 bytes as they are. */
  type Adjust = seq<byte> -> Option<seq<byte>>

  ghost predicate Keeps64(adjust: Adjust) {
    forall sig: seq<byte> :: |sig| == 64 ==> adjust(sig) == Some(sig)
  }

  /** `decodeRawWalletSignature`: hex is preferred when both readings are possible. */
  function DecodeRaw(raw: string): Option<seq<byte>> {
    if IsHex(raw) then DecodeHex(raw) else Atob(raw)
  }

  /** A trailing sighash byte is dropped. */
  function ToAdjustable(sig: seq<byte>): seq<byte> {
    if |sig| == 65 then sig[..64] else sig
  }

  /** `extractSchnorrHexFromWalletSignature`; `None` is any of its errors. */
  function ExtractSchnorrHex(raw: string, adjust: Adjust): Option<string> {
    match DecodeRaw(raw)
    case None => None
    case Some(bytes) =>
      match ParseWitnessStack(bytes)
      case Some(items) =>
        if items == [] then ExtractRaw(bytes, adjust)
        else
          (match adjust(ToAdjustable(items[0]))
           case None => None
           case Some(adjusted) => if |adjusted| == 64 then Some(BytesToHex(adjusted)) else ExtractRaw(bytes, adjust))
      case None => ExtractRaw(bytes, adjust)
  }

  function ExtractRaw(bytes: seq<byte>, adjust: Adjust): Option<string> {
    match adjust(ToAdjustable(bytes))
    case None => None
    case Some(adjusted) => if |adjusted| == 64 then Some(BytesToHex(adjusted)) else None
  }

  /** `makeSwapSigner`, given the hex text the wallet returned. */
  function SwapSignature(signature64Hex: string): Option<string> {
    match HexToBytes(signature64Hex)
    case None => None
    case Some(sig) => if |sig| != 64 then None else Some(Btoa(Serialize([sig])))
  }

  lemma SerializeOne(sig: seq<byte>)
    requires |sig| == 64 || |sig| == 65
    ensures Serialize([sig]) == [1, |sig|] + sig
  {
    assert [sig][1..] == [];
    assert SerializeItems([sig]) == [|sig|] + sig + [];
  }

  /** The base64 text of a one-item witness with a 64- or 65-byte signature starts
      with "AU", so it is never mistaken for hex. */
  lemma WitnessTextIsNotHex(sig: seq<byte>)
    requires |sig| == 64 || |sig| == 65
    ensures !IsHex(Btoa(Serialize([sig])))
  {
    SerializeOne(sig);
    var b := Serialize([sig]);
    var s := Btoa(b);
    assert b[0] == 1 && b[1] == |sig|;
    assert s[0] == Digit64(0) == 'A' && s[1] == Digit64(20) == 'U';
    hide Digits64, Btoa, Digit64;
    assert Clean(s) == s;
    assert HexValue(s[1]) == -1;
  }

  /** A BIP-322 simple witness of one signature, with or without a sighash byte, is
      read back as the signature's 64 bytes. */
  lemma ExtractFromWitness(sig: seq<byte>, adjust: Adjust)
    requires (|sig| == 64 || |sig| == 65) && Keeps64(adjust)
    ensures ExtractSchnorrHex(Btoa(Serialize([sig])), adjust) == Some(BytesToHex(sig[..64]))
  {
    hide Btoa, Atob, Serialize, ParseWitnessStack, BytesToHex;
    WitnessTextIsNotHex(sig);
    Base64RoundTrip(Serialize([sig]));
    ParseSerialized([sig]);
    assert ToAdjustable(sig) == sig[..64];
  }

  /** What the swap signer writes gives back the wallet's signature: exactly the
      texts of 64 bytes are accepted, and a lower-case text comes back unchanged. */
  lemma SwapSignatureRoundTrip(hex: string, adjust: Adjust)
    requires Keeps64(adjust)
    ensures SwapSignature(hex).Some? <==> |Clean(hex)| == 128
    ensures SwapSignature(hex).Some? ==>
              && !IsHex(SwapSignature(hex).value)
              && ExtractSchnorrHex(SwapSignature(hex).value, adjust) == Some(BytesToHex(HexToBytes(hex).value))
              && (LowerHex(hex) ==> ExtractSchnorrHex(SwapSignature(hex).value, adjust) == Some(hex))
  {
    hide Btoa, Serialize, ExtractSchnorrHex, BytesToHex, IsHex;
    if SwapSignature(hex).Some? {
      var sig := HexToBytes(hex).value;
      WitnessTextIsNotHex(sig);
      ExtractFromWitness(sig, adjust);
      assert sig[..64] == sig;
      if LowerHex(hex) {
        HexUnique(hex);
      }
    }
  }

  /** A bare 64-byte signature in hex is extracted unless its bytes happen to read
      as a witness stack whose first item `adjustSignature` refuses or turns into
      some other 64 bytes. */
  lemma ExtractFromBareHex(sig: seq<byte>, adjust: Adjust)
    requires |sig| == 64 && Keeps64(adjust)
    ensures ExtractSchnorrHex(BytesToHex(sig), adjust) == Some(BytesToHex(sig)) <==>
            match ParseWitnessStack(sig)
            case None => true
            case Some(items) =>
              items == [] ||
              (adjust(ToAdjustable(items[0])).Some? &&
               (|adjust(ToAdjustable(items[0])).value| == 64 ==> adjust(ToAdjustable(items[0])).value == sig))
  {
    HexRoundTrip(sig);
    assert IsHex(BytesToHex(sig));
    assert DecodeRaw(BytesToHex(sig)) == Some(sig);
    hide ParseWitnessStack, DecodeRaw, BytesToHex;
    match ParseWitnessStack(sig)
    case None =>
    case Some(items) =>
      if items != [] && adjust(ToAdjustable(items[0])).Some? {
        var adjusted := adjust(ToAdjustable(items[0])).value;
        if |adjusted| == 64 && BytesToHex(adjusted) == BytesToHex(sig) {
          HexRoundTrip(adjusted);
        }
      }
  }

  /** It does happen: a signature that starts with the bytes 1, 62 reads as a stack
      of one 62-byte item. */
  lemma BareSignatureReadAsWitness(rest: seq<byte>, adjust: Adjust)
    requires |rest| == 62 && Keeps64(adjust) && adjust(rest) == None
    ensures ExtractSchnorrHex(BytesToHex([1, 62] + rest), adjust) == None
  {
    var sig: seq<byte> := [1, 62] + rest;
    assert [rest][1..] == [];
    assert SerializeItems([rest]) == [62] + rest + [];
    assert Serialize([rest]) == sig;
    hide ParseWitnessStack, BytesToHex, DecodeRaw, Serialize;
    ParseSerialized([rest]);
    DecodeHexText(sig);
  }

  lemma DecodeHexText(sig: seq<byte>)
    requires sig != []
    ensures DecodeRaw(BytesToHex(sig)) == Some(sig)
  {
    HexRoundTrip(sig);
  }
}
