/** The BIP-322 "simple" witness blob that `signer-adapter.ts` writes and
    `bip322-witness.ts` reads. */
module WitnessStack {
  import opened Options

  type byte = x: int | 0 <= x < 256

  /** A size read from the bytes, and the offset after it. */
  datatype Size = Size(value: int, nextOffset: nat)

  /** A 32-bit pattern as the signed number that `|` and `<<` give. */
  function Int32(x: nat): int
    requires x < 0x1_0000_0000
  {
    if x < 0x8000_0000 then x else x - 0x1_0000_0000
  }

  function Little2(a: int, b: int): int { a + 0x100 * b }

  function Little4(a: int, b: int, c: int, d: int): int { a + 0x100 * b + 0x1_0000 * c + 0x100_0000 * d }

  function ReadCompactSize(bytes: seq<byte>, offset: nat): Option<Size> {
    if offset >= |bytes| then None
    else
      var first := bytes[offset];
      if first < 0xfd then Some(Size(first, offset + 1))
      else if first == 0xfd then
        if offset + 2 >= |bytes| then None
        else Some(Size(Little2(bytes[offset + 1], bytes[offset + 2]), offset + 3))
      else if first == 0xfe then
        if offset + 4 >= |bytes| then None
        else Some(Size(Int32(Little4(bytes[offset + 1], bytes[offset + 2], bytes[offset + 3], bytes[offset + 4])),
                       offset + 5))
      else None
  }

  /** `n` items from `offset` to the very end. */
  function ParseItems(bytes: seq<byte>, offset: nat, n: nat): Option<seq<seq<byte>>>
    decreases n
  {
    if n == 0 then if offset == |bytes| then Some([]) else None
    else
      match ReadCompactSize(bytes, offset)
      case None => None
      case Some(size) =>
        if size.value < 0 || size.nextOffset + size.value > |bytes| then None
        else
          match ParseItems(bytes, size.nextOffset + size.value, n - 1)
          case None => None
          case Some(rest) => Some([bytes[size.nextOffset..size.nextOffset + size.value]] + rest)
  }

  function ParseWitnessStack(bytes: seq<byte>): Option<seq<seq<byte>>> {
    match ReadCompactSize(bytes, 0)
    case None => None
    case Some(count) =>
      if count.value <= 0 || count.value > 16 then None
      else ParseItems(bytes, count.nextOffset, count.value)
  }

  method ParseWitnessStackLoop(bytes: seq<byte>) returns (r: Option<seq<seq<byte>>>)
    ensures r == ParseWitnessStack(bytes)
  {
    var countResult := ReadCompactSize(bytes, 0);
    if countResult == None || countResult.value.value <= 0 || countResult.value.value > 16 {
      return None;
    }
    var count := countResult.value.value;
    var offset: nat := countResult.value.nextOffset;
    var items: seq<seq<byte>> := [];
    PrependNothing(ParseItems(bytes, offset, count));
    hide ReadCompactSize, ParseWitnessStack, ParseItems, Prepend;
    for i := 0 to count
      invariant ParseWitnessStack(bytes) == Prepend(items, ParseItems(bytes, offset, count - i))
    {
      ItemThenRest(bytes, offset, count - i);
      PrependFailure(items);
      var size := ReadCompactSize(bytes, offset);
      if size == None {
        return None;
      }
      offset := size.value.nextOffset;
      if size.value.value < 0 || offset + size.value.value > |bytes| {
        return None;
      }
      var item := bytes[offset..offset + size.value.value];
      offset := offset + size.value.value;
      PrependStep(items, item, ParseItems(bytes, offset, count - i - 1));
      items := items + [item];
    }
    NoItemsLeft(bytes, offset);
    PrependToNothing(items);
    PrependFailure(items);
    return if offset == |bytes| then Some(items) else None;
  }

  /** One turn of the loop. */
  lemma ItemThenRest(bytes: seq<byte>, offset: nat, n: nat)
    requires n > 0
    ensures var size := ReadCompactSize(bytes, offset);
            ParseItems(bytes, offset, n) ==
            if size == None || size.value.value < 0 || size.value.nextOffset + size.value.value > |bytes| then None
            else
              var start, end := size.value.nextOffset, size.value.nextOffset + size.value.value;
              Prepend([bytes[start..end]], ParseItems(bytes, end, n - 1))
  {
    hide ReadCompactSize;
  }

  lemma NoItemsLeft(bytes: seq<byte>, offset: nat)
    ensures ParseItems(bytes, offset, 0) == if offset == |bytes| then Some([]) else None
  {}

  lemma PrependFailure(items: seq<seq<byte>>)
    ensures Prepend(items, None) == None
  {}

  lemma PrependToNothing(items: seq<seq<byte>>)
    ensures Prepend(items, Some([])) == Some(items)
  {
    assert items + [] == items;
  }

  ghost function Prepend(items: seq<seq<byte>>, rest: Option<seq<seq<byte>>>): Option<seq<seq<byte>>> {
    if rest.Some? then Some(items + rest.value) else None
  }

  lemma PrependNothing(rest: Option<seq<seq<byte>>>)
    ensures Prepend([], rest) == rest
  {
    if rest.Some? {
      assert [] + rest.value == rest.value;
    }
  }

  lemma PrependStep(items: seq<seq<byte>>, item: seq<byte>, rest: Option<seq<seq<byte>>>)
    ensures Prepend(items, Prepend([item], rest)) == Prepend(items + [item], rest)
  {
    if rest.Some? {
      assert items + ([item] + rest.value) == items + [item] + rest.value;
    }
  }

  // ----- Writing: the serialisation of BIP-322, section "Simple"

  function LittleEndian(n: nat, width: nat): seq<byte> {
    if width == 0 then [] else [n % 0x100] + LittleEndian(n / 0x100, width - 1)
  }

  function CompactSize(n: nat): seq<byte> {
    if n < 0xfd then [n]
    else if n < 0x1_0000 then [0xfd] + LittleEndian(n, 2)
    else if n < 0x1_0000_0000 then [0xfe] + LittleEndian(n, 4)
    else [0xff] + LittleEndian(n, 8)
  }

  function SerializeItems(items: seq<seq<byte>>): seq<byte> {
    if items == [] then [] else CompactSize(|items[0]|) + items[0] + SerializeItems(items[1..])
  }

  function Serialize(items: seq<seq<byte>>): seq<byte> {
    CompactSize(|items|) + SerializeItems(items)
  }

  lemma LittleEndian2(n: nat)
    requires n < 0x1_0000
    ensures LittleEndian(n, 2) == [n % 0x100, n / 0x100]
  {
    assert LittleEndian(n / 0x100, 1) == [n / 0x100 % 0x100] + LittleEndian(n / 0x100 / 0x100, 0);
  }

  lemma LittleEndian4(n: nat)
    requires n < 0x1_0000_0000
    ensures LittleEndian(n, 4) ==
            [n % 0x100, n / 0x100 % 0x100, n / 0x1_0000 % 0x100, n / 0x100_0000]
  {
    var n1 := n / 0x100;
    var n2 := n1 / 0x100;
    var n3 := n2 / 0x100;
    assert n2 == n / 0x1_0000 && n3 == n / 0x100_0000;
    assert LittleEndian(n3, 1) == [n3 % 0x100] + LittleEndian(n3 / 0x100, 0) == [n3];
    assert LittleEndian(n2, 2) == [n2 % 0x100] + LittleEndian(n3, 1);
    assert LittleEndian(n1, 3) == [n1 % 0x100] + LittleEndian(n2, 2);
  }

  /** A written size reads back as itself below 2^31 and is unusable from there on. */
  lemma ReadWritten(bytes: seq<byte>, offset: nat, n: nat)
    requires offset + |CompactSize(n)| <= |bytes|
    requires bytes[offset..offset + |CompactSize(n)|] == CompactSize(n)
    ensures n < 0x8000_0000 ==> ReadCompactSize(bytes, offset) == Some(Size(n, offset + |CompactSize(n)|))
    ensures n >= 0x8000_0000 ==> ReadCompactSize(bytes, offset).None? || ReadCompactSize(bytes, offset).value.value < 0
  {
    var header := bytes[offset..offset + |CompactSize(n)|];
    assert |CompactSize(n)| > 0 && bytes[offset] == header[0];
    if n < 0xfd {
    } else if n < 0x1_0000 {
      LittleEndian2(n);
      assert bytes[offset + 1] == header[1] && bytes[offset + 2] == header[2];
    } else if n < 0x1_0000_0000 {
      LittleEndian4(n);
      assert bytes[offset + 1] == header[1] && bytes[offset + 2] == header[2];
      assert bytes[offset + 3] == header[3] && bytes[offset + 4] == header[4];
      Digits4(n);
    }
  }

  lemma Digits4(n: nat)
    requires n < 0x1_0000_0000
    ensures Little4(n % 0x100, n / 0x100 % 0x100, n / 0x1_0000 % 0x100, n / 0x100_0000) == n
  {
    assert n / 0x1_0000 == n / 0x100 / 0x100 && n / 0x100_0000 == n / 0x1_0000 / 0x100;
  }

  ghost predicate Small(items: seq<seq<byte>>) {
    forall i :: 0 <= i < |items| ==> |items[i]| < 0x8000_0000
  }

  /** Reading one item that was written. */
  lemma ParseOneWritten(bytes: seq<byte>, offset: nat, item: seq<byte>, n: nat)
    requires var body := offset + |CompactSize(|item|)|;
             && body + |item| <= |bytes| && bytes[offset..body] == CompactSize(|item|)
             && bytes[body..body + |item|] == item
    ensures ParseItems(bytes, offset, n + 1) ==
            if |item| < 0x8000_0000
            then Prepend([item], ParseItems(bytes, offset + |CompactSize(|item|)| + |item|, n)) else None
  {
    ReadWritten(bytes, offset, |item|);
    hide ReadCompactSize, CompactSize;
  }

  lemma SmallCons(items: seq<seq<byte>>)
    requires items != []
    ensures Small(items) <==> |items[0]| < 0x8000_0000 && Small(items[1..])
  {
    assert items == [items[0]] + items[1..];
    forall i | 0 <= i < |items[1..]| && Small(items)
      ensures |items[1..][i]| < 0x8000_0000
    {
      assert items[1..][i] == items[i + 1];
    }
  }

  lemma {:induction false} ParseWritten(before: seq<byte>, items: seq<seq<byte>>)
    ensures ParseItems(before + SerializeItems(items), |before|, |items|) ==
            if Small(items) then Some(items) else None
    decreases |items|
  {
    var bytes := before + SerializeItems(items);
    hide ReadCompactSize, CompactSize, Small;
    if items == [] {
      assert Small(items) by { EmptyIsSmall(); }
    } else {
      var header, item := CompactSize(|items[0]|), items[0];
      var before' := before + header + item;
      assert bytes == before' + SerializeItems(items[1..]);
      ParseWritten(before', items[1..]);
      assert bytes[|before|..|before| + |header|] == header;
      assert bytes[|before| + |header|..|before| + |header| + |item|] == item;
      ParseOneWritten(bytes, |before|, item, |items| - 1);
      SmallCons(items);
      assert items == [item] + items[1..];
    }
  }

  lemma EmptyIsSmall()
    ensures Small([])
  {}

  /** The parser inverts the serialisation exactly for stacks of 1 to 16 items that
      are each shorter than 2^31 bytes. */
  lemma ParseSerialized(items: seq<seq<byte>>)
    ensures ParseWitnessStack(Serialize(items)) == Some(items) <==> 1 <= |items| <= 16 && Small(items)
  {
    var header := CompactSize(|items|);
    assert Serialize(items)[0..|header|] == header;
    ReadWritten(Serialize(items), 0, |items|);
    ParseWritten(header, items);
    hide CompactSize, ReadCompactSize, Small;
  }

  // ----- What is accepted

  /** `header` is a size field for `n`, not necessarily the shortest. */
  ghost predicate SizeField(header: seq<byte>, n: nat) {
    || (n < 0xfd && header == [n])
    || (|header| == 3 && header[0] == 0xfd && n == Little2(header[1], header[2]))
    || (|header| == 5 && header[0] == 0xfe && header[4] < 0x80
        && n == Little4(header[1], header[2], header[3], header[4]))
  }

  /** `bytes` is a header and a body for each item in turn, and nothing else. */
  ghost predicate ItemsBlob(bytes: seq<byte>, items: seq<seq<byte>>)
    decreases |items|
  {
    if items == [] then bytes == []
    else
      exists h: nat :: h + |items[0]| <= |bytes| && SizeField(bytes[..h], |items[0]|)
                       && bytes[h..h + |items[0]|] == items[0]
                       && ItemsBlob(bytes[h + |items[0]|..], items[1..])
  }

  /** The grammar of an accepted blob. */
  ghost predicate StackBlob(bytes: seq<byte>, items: seq<seq<byte>>) {
    exists h: nat :: h <= |bytes| && 1 <= |items| <= 16 && SizeField(bytes[..h], |items|)
      && ItemsBlob(bytes[h..], items)
  }

  /** The size read at an offset is the one field that starts there. */
  lemma ReadIsSizeField(bytes: seq<byte>, offset: nat, h: nat, n: nat)
    requires offset + h <= |bytes|
    ensures SizeField(bytes[offset..offset + h], n) <==> ReadCompactSize(bytes, offset) == Some(Size(n, offset + h))
  {
    var header := bytes[offset..offset + h];
    assert forall i :: 0 <= i < h ==> header[i] == bytes[offset + i];
  }

  lemma {:induction false} ParsedIsBlob(bytes: seq<byte>, offset: nat, items: seq<seq<byte>>)
    requires offset <= |bytes| && ParseItems(bytes, offset, |items|) == Some(items)
    ensures ItemsBlob(bytes[offset..], items)
    decreases |items|
  {
    hide SizeField, ReadCompactSize;
    if items != [] {
      var rest := bytes[offset..];
      var size := ReadCompactSize(bytes, offset);
      ReadAdvances(bytes, offset);
      var h, next := size.value.nextOffset - offset, size.value.nextOffset + size.value.value;
      var tail := ParseItems(bytes, next, |items| - 1).value;
      assert items == [bytes[size.value.nextOffset..next]] + tail;
      assert items[1..] == tail && items[0] == bytes[size.value.nextOffset..next];
      ParsedIsBlob(bytes, next, tail);
      ReadIsSizeField(bytes, offset, h, |items[0]|);
      DropTake(bytes, offset, h, |items[0]|);
    }
  }

  lemma ReadAdvances(bytes: seq<byte>, offset: nat)
    requires ReadCompactSize(bytes, offset).Some?
    ensures offset < ReadCompactSize(bytes, offset).value.nextOffset <= |bytes|
  {}

  lemma FirstItem(bytes: seq<byte>, items: seq<seq<byte>>) returns (h: nat)
    requires items != [] && ItemsBlob(bytes, items)
    ensures h + |items[0]| <= |bytes| && SizeField(bytes[..h], |items[0]|)
    ensures bytes[h..h + |items[0]|] == items[0] && ItemsBlob(bytes[h + |items[0]|..], items[1..])
  {
    hide SizeField;
    h :| h + |items[0]| <= |bytes| && SizeField(bytes[..h], |items[0]|)
         && bytes[h..h + |items[0]|] == items[0] && ItemsBlob(bytes[h + |items[0]|..], items[1..]);
  }

  lemma NoItems(bytes: seq<byte>, offset: nat)
    requires offset <= |bytes| && ItemsBlob(bytes[offset..], [])
    ensures ParseItems(bytes, offset, 0) == Some([])
  {}

  lemma {:induction false} BlobIsParsed(bytes: seq<byte>, offset: nat, items: seq<seq<byte>>)
    requires offset <= |bytes| && ItemsBlob(bytes[offset..], items)
    ensures ParseItems(bytes, offset, |items|) == Some(items)
    decreases |items|
  {
    hide *;
    if items == [] {
      NoItems(bytes, offset);
    } else {
      var size := |items[0]|;
      var h := FirstItem(bytes[offset..], items);
      DropTake(bytes, offset, h, size);
      ReadIsSizeField(bytes, offset, h, size);
      BlobIsParsed(bytes, offset + h + size, items[1..]);
      ParseOne(bytes, offset, |items|, offset + h, size);
      assert items == [items[0]] + items[1..];
    }
  }

  lemma DropTake(bytes: seq<byte>, offset: nat, h: nat, n: nat)
    requires offset + h + n <= |bytes|
    ensures bytes[offset..][..h] == bytes[offset..offset + h]
    ensures bytes[offset..][h..h + n] == bytes[offset + h..offset + h + n]
    ensures bytes[offset..][h + n..] == bytes[offset + h + n..]
  {}

  lemma ParseOne(bytes: seq<byte>, offset: nat, n: nat, body: nat, size: nat)
    requires n > 0 && body + size <= |bytes| && ReadCompactSize(bytes, offset) == Some(Size(size, body))
    requires ParseItems(bytes, body + size, n - 1).Some?
    ensures ParseItems(bytes, offset, n) ==
            Some([bytes[body..body + size]] + ParseItems(bytes, body + size, n - 1).value)
  {
    hide ReadCompactSize;
  }

  lemma {:induction false} ParsedCount(bytes: seq<byte>, offset: nat, n: nat)
    requires ParseItems(bytes, offset, n).Some?
    ensures |ParseItems(bytes, offset, n).value| == n
    decreases n
  {
    hide ReadCompactSize;
    if n > 0 {
      var size := ReadCompactSize(bytes, offset).value;
      ParsedCount(bytes, size.nextOffset + size.value, n - 1);
    }
  }

  /** A blob is accepted, as these items, exactly when it is their size fields and
      bodies with no byte left over. */
  lemma AcceptedIsBlob(bytes: seq<byte>, items: seq<seq<byte>>)
    ensures ParseWitnessStack(bytes) == Some(items) <==> StackBlob(bytes, items)
  {
    var count := ReadCompactSize(bytes, 0);
    if ParseWitnessStack(bytes) == Some(items) {
      var h := count.value.nextOffset;
      ParsedCount(bytes, h, count.value.value);
      ReadAdvances(bytes, 0);
      ParsedIsBlob(bytes, h, items);
      ReadIsSizeField(bytes, 0, h, |items|);
      assert bytes[0..0 + h] == bytes[..h];
    }
    if StackBlob(bytes, items) {
      var h: nat :| h <= |bytes| && 1 <= |items| <= 16 && SizeField(bytes[..h], |items|)
        && ItemsBlob(bytes[h..], items);
      assert bytes[0..0 + h] == bytes[..h];
      ReadIsSizeField(bytes, 0, h, |items|);
      BlobIsParsed(bytes, h, items);
    }
  }

  // ----- The shortest size fields

  /** The length of the shortest size field for `n`. */
  function Width(n: nat): nat {
    if n < 0xfd then 1 else if n < 0x1_0000 then 3 else 5
  }

  lemma {:induction false} LittleEndianLength(n: nat, width: nat)
    ensures |LittleEndian(n, width)| == width
  {
    if width > 0 {
      LittleEndianLength(n / 0x100, width - 1);
    }
  }

  lemma TwoDigits(a: byte, b: byte)
    ensures LittleEndian(Little2(a, b), 2) == [a, b]
  {
    LittleEndian2(Little2(a, b));
  }

  lemma FourDigits(a: byte, b: byte, c: byte, d: byte)
    ensures LittleEndian(Little4(a, b, c, d), 4) == [a, b, c, d]
  {
    var n := Little4(a, b, c, d);
    LittleEndian4(n);
    assert n / 0x100 == b + 0x100 * c + 0x1_0000 * d;
    assert n / 0x1_0000 == c + 0x100 * d;
    assert n / 0x100_0000 == d;
  }

  /** No size field for `n` is shorter, and the writer's is the one of this length. */
  lemma WidthIsLeast(header: seq<byte>, n: nat)
    requires SizeField(header, n)
    ensures |header| >= Width(n)
    ensures |header| == Width(n) <==> header == CompactSize(n)
  {
    LittleEndianLength(n, 2);
    LittleEndianLength(n, 4);
    LittleEndianLength(n, 8);
    SizeFieldIsSmall(header, n);
    if |header| == 3 {
      TwoDigits(header[1], header[2]);
      assert n < 0x1_0000;
      hide LittleEndian, Little2;
      assert header == [0xfd] + [header[1], header[2]];
    } else if |header| == 5 {
      FourDigits(header[1], header[2], header[3], header[4]);
      hide LittleEndian, Little4;
      assert header == [0xfe] + [header[1], header[2], header[3], header[4]];
    }
  }

  /** Each of the `n` items from `offset` on has the shortest size field. */
  predicate ShortItems(bytes: seq<byte>, offset: nat, n: nat)
    decreases n
  {
    n == 0 ||
    match ReadCompactSize(bytes, offset)
    case None => false
    case Some(size) =>
      size.value >= 0 && size.nextOffset - offset == Width(size.value)
      && ShortItems(bytes, size.nextOffset + size.value, n - 1)
  }

  predicate ShortFields(bytes: seq<byte>) {
    match ReadCompactSize(bytes, 0)
    case None => false
    case Some(count) =>
      count.value >= 0 && count.nextOffset == Width(count.value) && ShortItems(bytes, count.nextOffset, count.value)
  }

  lemma SizeFieldIsSmall(header: seq<byte>, n: nat)
    requires SizeField(header, n)
    ensures n < 0x8000_0000
  {}

  /** An accepted item's field is the shortest exactly when it is the written one. */
  lemma FieldIsWritten(bytes: seq<byte>, offset: nat, n: nat, next: nat)
    requires offset <= next <= |bytes| && ReadCompactSize(bytes, offset) == Some(Size(n, next))
    ensures next - offset == Width(n) <==> bytes[offset..next] == CompactSize(n)
    ensures CompactSize(n) <= bytes[offset..] ==> bytes[offset..next] == CompactSize(n)
  {
    hide ReadCompactSize, SizeField, Width, CompactSize;
    ReadIsSizeField(bytes, offset, next - offset, n);
    WidthIsLeast(bytes[offset..next], n);
    SizeFieldIsSmall(bytes[offset..next], n);
    var header := CompactSize(n);
    if header <= bytes[offset..] {
      assert bytes[offset..offset + |header|] == bytes[offset..][..|header|] == header;
      ReadWritten(bytes, offset, n);
    }
  }

  lemma Regroup(bytes: seq<byte>, offset: nat, next: nat, end: nat, header: seq<byte>, item: seq<byte>, rest: seq<byte>)
    requires offset <= next <= end <= |bytes| && bytes[next..end] == item
    ensures bytes[offset..next] == header ==> (bytes[offset..] == header + item + rest <==> bytes[end..] == rest)
    ensures bytes[offset..] == header + item + rest ==> header <= bytes[offset..]
  {
    var all := bytes[offset..];
    assert all == bytes[offset..next] + item + bytes[end..];
    if bytes[offset..next] == header && all == header + item + rest {
      assert bytes[end..] == all[end - offset..] == (header + item + rest)[|header| + |item|..] == rest;
    }
    if all == header + item + rest {
      assert all[..|header|] == header;
    }
  }

  lemma {:induction false} ShortIsSerialized(bytes: seq<byte>, offset: nat, items: seq<seq<byte>>)
    requires offset <= |bytes| && ParseItems(bytes, offset, |items|) == Some(items)
    ensures ShortItems(bytes, offset, |items|) <==> bytes[offset..] == SerializeItems(items)
    decreases |items|
  {
    hide ReadCompactSize, CompactSize, Width;
    if items != [] {
      var size := ReadCompactSize(bytes, offset).value;
      ReadAdvances(bytes, offset);
      var next, end := size.nextOffset, size.nextOffset + size.value;
      var tail := ParseItems(bytes, end, |items| - 1).value;
      assert items == [bytes[next..end]] + tail;
      assert items[1..] == tail && items[0] == bytes[next..end];
      ShortIsSerialized(bytes, end, tail);
      FieldIsWritten(bytes, offset, size.value, next);
      Regroup(bytes, offset, next, end, CompactSize(size.value), items[0], SerializeItems(tail));
    }
  }

  /** An accepted blob is the serialisation of its items exactly when each of its size
      fields is the shortest for its value. */
  lemma AcceptedIsSerialized(bytes: seq<byte>, items: seq<seq<byte>>)
    requires ParseWitnessStack(bytes) == Some(items)
    ensures bytes == Serialize(items) <==> ShortFields(bytes)
  {
    hide ReadCompactSize, CompactSize, Width, ShortItems, ParseItems;
    var count := ReadCompactSize(bytes, 0).value;
    var next := count.nextOffset;
    ReadAdvances(bytes, 0);
    ParsedCount(bytes, next, count.value);
    ShortIsSerialized(bytes, next, items);
    FieldIsWritten(bytes, 0, count.value, next);
    assert bytes[next..next] == [] && bytes[0..] == bytes;
    Regroup(bytes, 0, next, next, CompactSize(count.value), [], SerializeItems(items));
    assert CompactSize(count.value) + [] + SerializeItems(items) == Serialize(items);
  }

  /** Size fields need not be the shortest, so an accepted blob is not always the
      serialisation of its items. */
  lemma LongSizeFieldAccepted(x: byte)
    ensures ParseWitnessStack([1, 0xfd, 1, 0, x]) == Some([[x]])
    ensures Serialize([[x]]) == [1, 1, x]
  {
    var bytes: seq<byte> := [1, 0xfd, 1, 0, x];
    assert ReadCompactSize(bytes, 0) == Some(Size(1, 1)) && ReadCompactSize(bytes, 1) == Some(Size(1, 4));
    assert ParseItems(bytes, 5, 0) == Some([]);
    assert bytes[4..5] == [x];
    assert [[x]] + [] == [[x]];
    assert ParseItems(bytes, 1, 1) == Some([[x]]);
    assert SerializeItems([[x]]) == [1] + [x] + SerializeItems([[x]][1..]);
    assert [[x]][1..] == [];
  }

  // ----- Blobs written out

  /** Size fields are little-endian, after 253, 254 or 255 from 253 on. */
  lemma SizeFields()
    ensures CompactSize(252) == [252] && CompactSize(253) == [253, 253, 0] && CompactSize(0x1234) == [253, 0x34, 0x12]
    ensures CompactSize(0xffff) == [253, 255, 255] && CompactSize(0x1_0000) == [254, 0, 0, 1, 0]
    ensures CompactSize(0x1234_5678) == [254, 0x78, 0x56, 0x34, 0x12]
    ensures CompactSize(0x1_0000_0002) == [255, 2, 0, 0, 0, 1, 0, 0, 0]
  {
    LittleTexts();
    LongLittleTexts();
    hide LittleEndian;
  }

  lemma LittleTexts()
    ensures LittleEndian(253, 2) == [253, 0] && LittleEndian(0x1234, 2) == [0x34, 0x12]
    ensures LittleEndian(0xffff, 2) == [255, 255] && LittleEndian(0x1_0000, 4) == [0, 0, 1, 0]
    ensures LittleEndian(0x1234_5678, 4) == [0x78, 0x56, 0x34, 0x12]
  {}

  lemma LongLittleTexts()
    ensures LittleEndian(0x1_0000_0002, 8) == [2, 0, 0, 0, 1, 0, 0, 0]
  {}

  lemma TwoItems()
    ensures Serialize([[5, 6], []]) == [2, 2, 5, 6, 0]
    ensures ParseWitnessStack([2, 2, 5, 6, 0]) == Some([[5, 6], []])
    ensures ParseWitnessStack([2, 2, 5, 6, 0, 0]) == None && ParseWitnessStack([2, 2, 5, 6]) == None
    ensures ParseWitnessStack([0]) == None && ParseWitnessStack([]) == None
  {
    var items: seq<seq<byte>> := [[5, 6], []];
    assert items[1..] == [[]] && items[1..][1..] == [];
    assert SerializeItems([[]]) == [0];
    var blob: seq<byte> := [2, 2, 5, 6, 0];
    ParseSerialized(items);
    assert ParseItems([2, 2, 5, 6, 0, 0], 1, 2) == None;
  }
}
