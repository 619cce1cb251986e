/** The list of recent recipients of `wallet-store.ts`: a move-to-front list that
    is cut to 20 entries at every use. */
module RecentRecipients {
  import opened Options
  import opened Strings
  import opened AddressNetwork

  const MAX_RECENT_RECIPIENTS := 20

  datatype Recipient = Recipient(
    address: string,
    asset: string,
    network: NetworkId,
    mint: Option<string>,
    labelText: Option<string>,
    lastUsedAt: int,
    useCount: nat)

  /** One call's argument. */
  datatype Entry = Entry(
    address: Option<string>,
    asset: string,
    network: NetworkId,
    mint: Option<string>,
    labelText: Option<string>)

  /** What makes two entries the same recipient. */
  datatype Key = Key(address: string, asset: string, network: NetworkId, mint: string)

  function OrEmpty(s: Option<string>): string {
    if s.Some? then s.value else ""
  }

  function KeyOf(r: Recipient): Key {
    Key(r.address, r.asset, r.network, OrEmpty(r.mint))
  }

  function TrimmedAddress(e: Entry): string {
    if e.address.Some? then Trim(e.address.value) else ""
  }

  function EntryKey(e: Entry): Key {
    Key(TrimmedAddress(e), e.asset, e.network, OrEmpty(e.mint))
  }

  function Find(rs: seq<Recipient>, k: Key): Option<Recipient> {
    if rs == [] then None else if KeyOf(rs[0]) == k then Some(rs[0]) else Find(rs[1..], k)
  }

  function Others(rs: seq<Recipient>, k: Key): seq<Recipient> {
    if rs == [] then []
    else if KeyOf(rs[0]) == k then Others(rs[1..], k)
    else [rs[0]] + Others(rs[1..], k)
  }

  function Capped<T>(s: seq<T>): (r: seq<T>)
    ensures |r| <= MAX_RECENT_RECIPIENTS && r <= s
  {
    if |s| <= MAX_RECENT_RECIPIENTS then s else s[..MAX_RECENT_RECIPIENTS]
  }

  function NextEntry(existing: Option<Recipient>, e: Entry, now: int): Recipient {
    match existing
    case Some(r) =>
      var labelText := if e.labelText.Some? then e.labelText else r.labelText;
      r.(lastUsedAt := now, useCount := r.useCount + 1, labelText := labelText)
    case None => Recipient(TrimmedAddress(e), e.asset, e.network, e.mint, e.labelText, now, 1)
  }

  function Used(rs: seq<Recipient>, e: Entry, now: int): seq<Recipient> {
    if TrimmedAddress(e) == "" then rs
    else Capped([NextEntry(Find(rs, EntryKey(e)), e, now)] + Others(rs, EntryKey(e)))
  }

  class WalletStore {
    /** The stored list; old states may hold none. */
    var recentRecipients: Option<seq<Recipient>>

    constructor ()
      ensures recentRecipients == None
    {
      recentRecipients := None;
    }

    ghost function Recents(): seq<Recipient>
      reads this
    {
      if recentRecipients.Some? then recentRecipients.value else []
    }

    method AddRecentRecipient(entry: Entry, now: int)
      modifies this
      ensures Recents() == Used(old(Recents()), entry, now)
      ensures TrimmedAddress(entry) == "" ==> recentRecipients == old(recentRecipients)
    {
      var recents := if recentRecipients.Some? then recentRecipients.value else [];
      var trimmedAddress := TrimmedAddress(entry);
      if trimmedAddress == "" {
        return;
      }
      var existing := Find(recents, EntryKey(entry));
      var next := NextEntry(existing, entry, now);
      var others := Others(recents, EntryKey(entry));
      recentRecipients := Some(Capped([next] + others));
    }
  }

  // ----- Whole histories

  datatype Use = Use(entry: Entry, now: int)

  /** The list after a history of uses, from an empty one. */
  function Recents(history: seq<Use>): seq<Recipient> {
    if history == [] then []
    else
      var last := history[|history| - 1];
      Used(Recents(history[..|history| - 1]), last.entry, last.now)
  }

  function Keys(rs: seq<Recipient>): (ks: seq<Key>)
    ensures |ks| == |rs|
  {
    seq(|rs|, i requires 0 <= i < |rs| => KeyOf(rs[i]))
  }

  predicate Counts(u: Use) {
    TrimmedAddress(u.entry) != ""
  }

  function Without(ks: seq<Key>, k: Key): seq<Key> {
    if ks == [] then []
    else if ks[0] == k then Without(ks[1..], k)
    else [ks[0]] + Without(ks[1..], k)
  }

  /** The distinct keys of a history, the most recently used first, never cut. */
  function DistinctKeys(history: seq<Use>): seq<Key> {
    if history == [] then []
    else
      var last := history[|history| - 1];
      var before := DistinctKeys(history[..|history| - 1]);
      if Counts(last) then [EntryKey(last.entry)] + Without(before, EntryKey(last.entry)) else before
  }

  /** When `k` was last used: an index into the history, or -1. */
  function LastUse(history: seq<Use>, k: Key): (i: int)
    ensures -1 <= i < |history|
    ensures i >= 0 ==> Counts(history[i]) && EntryKey(history[i].entry) == k
    ensures forall j :: i < j < |history| && Counts(history[j]) ==> EntryKey(history[j].entry) != k
  {
    if history == [] then -1
    else
      var last := history[|history| - 1];
      if Counts(last) && EntryKey(last.entry) == k then |history| - 1
      else LastUse(history[..|history| - 1], k)
  }

  ghost predicate NoDuplicates(ks: seq<Key>) {
    forall i, j :: 0 <= i < j < |ks| ==> ks[i] != ks[j]
  }

  lemma {:induction false} WithoutKeeps(ks: seq<Key>, k: Key)
    ensures forall x :: x in Without(ks, k) <==> x in ks && x != k
    ensures NoDuplicates(ks) ==> NoDuplicates(Without(ks, k)) && |ks| - 1 <= |Without(ks, k)| <= |ks|
    ensures k !in ks ==> Without(ks, k) == ks
  {
    if ks != [] {
      WithoutKeeps(ks[1..], k);
      assert ks == [ks[0]] + ks[1..];
      if NoDuplicates(ks) {
        assert NoDuplicates(ks[1..]);
        assert ks[0] !in ks[1..];
        if ks[0] != k {
          ConsNoDuplicates(ks[0], Without(ks[1..], k));
        }
      }
    }
  }

  lemma ConsNoDuplicates(k: Key, ks: seq<Key>)
    requires NoDuplicates(ks) && k !in ks
    ensures NoDuplicates([k] + ks)
  {
    var all := [k] + ks;
    forall i, j | 0 <= i < j < |all|
      ensures all[i] != all[j]
    {
      assert all[j] == ks[j - 1];
    }
  }

  /** What `DistinctKeys` means: every key that was used, once each, in the order of
      its last use, the latest first. */
  lemma {:induction false} DistinctKeysMeaning(history: seq<Use>)
    ensures NoDuplicates(DistinctKeys(history))
    ensures forall k :: k in DistinctKeys(history) <==> LastUse(history, k) >= 0
    ensures forall i, j :: 0 <= i < j < |DistinctKeys(history)| ==>
              LastUse(history, DistinctKeys(history)[i]) > LastUse(history, DistinctKeys(history)[j])
  {
    if history != [] {
      var h, last := history[..|history| - 1], history[|history| - 1];
      DistinctKeysMeaning(h);
      if Counts(last) {
        var k, before := EntryKey(last.entry), DistinctKeys(h);
        WithoutKeeps(before, k);
        ConsNoDuplicates(k, Without(before, k));
        WithoutKeepsOrder(h, before, k);
        var rest := Without(before, k);
        forall n | 0 <= n < |rest|
          ensures LastUse(history, rest[n]) == LastUse(h, rest[n]) < LastUse(history, k)
        {
          assert rest[n] in rest;
        }
        hide LastUse, Without, NoDuplicates;
        ConsKeepsOrder(history, h, rest, k);
      }
    }
  }

  lemma ConsKeepsOrder(history: seq<Use>, h: seq<Use>, ks: seq<Key>, k: Key)
    requires forall i, j :: 0 <= i < j < |ks| ==> LastUse(h, ks[i]) > LastUse(h, ks[j])
    requires forall i :: 0 <= i < |ks| ==> LastUse(history, ks[i]) == LastUse(h, ks[i]) < LastUse(history, k)
    ensures forall i, j :: 0 <= i < j < |[k] + ks| ==> LastUse(history, ([k] + ks)[i]) > LastUse(history, ([k] + ks)[j])
  {
    hide LastUse;
    forall i, j | 0 <= i < j < |[k] + ks|
      ensures LastUse(history, ([k] + ks)[i]) > LastUse(history, ([k] + ks)[j])
    {
      assert ([k] + ks)[j] == ks[j - 1];
      assert i > 0 ==> ([k] + ks)[i] == ks[i - 1];
    }
  }

  lemma {:induction false} WithoutKeepsOrder(h: seq<Use>, ks: seq<Key>, k: Key)
    requires forall i, j :: 0 <= i < j < |ks| ==> LastUse(h, ks[i]) > LastUse(h, ks[j])
    ensures forall i, j :: 0 <= i < j < |Without(ks, k)| ==>
            LastUse(h, Without(ks, k)[i]) > LastUse(h, Without(ks, k)[j])
  {
    hide LastUse;
    if ks != [] {
      WithoutKeepsOrder(h, ks[1..], k);
      WithoutKeeps(ks[1..], k);
      if ks[0] != k {
        var rest := Without(ks[1..], k);
        forall j | 0 <= j < |rest|
          ensures LastUse(h, rest[j]) < LastUse(h, ks[0])
        {
          assert rest[j] in rest;
          var n :| 0 <= n < |ks[1..]| && ks[1..][n] == rest[j];
          assert ks[n + 1] == rest[j];
        }
        hide Without;
        ConsKeepsOrder(h, h, rest, ks[0]);
      }
    }
  }

  /** Cutting a list before moving a key to its front loses nothing against
      cutting it after. */
  lemma CutBeforeOrAfter(ks: seq<Key>, k: Key)
    requires NoDuplicates(ks)
    ensures Capped([k] + Without(Capped(ks), k)) == Capped([k] + Without(ks, k))
  {
    if |ks| > MAX_RECENT_RECIPIENTS {
      var kept, cut := ks[..MAX_RECENT_RECIPIENTS], ks[MAX_RECENT_RECIPIENTS..];
      assert ks == kept + cut;
      WithoutConcat(kept, cut, k);
      WithoutKeeps(kept, k);
      assert [k] + Without(ks, k) == ([k] + Without(kept, k)) + Without(cut, k);
    }
  }

  lemma {:induction false} WithoutConcat(a: seq<Key>, b: seq<Key>, k: Key)
    ensures Without(a + b, k) == Without(a, k) + Without(b, k)
  {
    if a == [] {
      assert a + b == b;
    } else {
      assert (a + b)[1..] == a[1..] + b;
      WithoutConcat(a[1..], b, k);
    }
  }

  lemma {:induction false} KeysOfOthers(rs: seq<Recipient>, k: Key)
    ensures Keys(Others(rs, k)) == Without(Keys(rs), k)
  {
    if rs != [] {
      KeysOfOthers(rs[1..], k);
      assert Keys(rs)[1..] == Keys(rs[1..]);
      if KeyOf(rs[0]) != k {
        assert Keys([rs[0]] + Others(rs[1..], k)) == [KeyOf(rs[0])] + Keys(Others(rs[1..], k));
      }
    }
  }

  lemma {:induction false} FindFinds(rs: seq<Recipient>, k: Key)
    ensures Find(rs, k).Some? <==> k in Keys(rs)
    ensures Find(rs, k).Some? ==> Find(rs, k).value in rs && KeyOf(Find(rs, k).value) == k
  {
    if rs != [] {
      FindFinds(rs[1..], k);
      assert Keys(rs) == [KeyOf(rs[0])] + Keys(rs[1..]);
      assert rs == [rs[0]] + rs[1..];
    }
  }

  /** One use, on keys alone. */
  lemma KeysAfterUse(rs: seq<Recipient>, e: Entry, now: int)
    requires TrimmedAddress(e) != ""
    ensures Keys(Used(rs, e, now)) == Capped([EntryKey(e)] + Without(Keys(rs), EntryKey(e)))
    ensures KeyOf(NextEntry(Find(rs, EntryKey(e)), e, now)) == EntryKey(e)
  {
    var k := EntryKey(e);
    FindFinds(rs, k);
    KeysOfOthers(rs, k);
    var next := NextEntry(Find(rs, k), e, now);
    assert KeyOf(next) == k;
    hide TrimmedAddress, Find, Others, Without, NextEntry, EntryKey, KeyOf;
    KeysOfFirst(next, Others(rs, k));
    KeysCapped([next] + Others(rs, k));
  }

  lemma KeysOfFirst(r: Recipient, rs: seq<Recipient>)
    ensures Keys([r] + rs) == [KeyOf(r)] + Keys(rs)
  {
    hide KeyOf;
  }

  lemma KeysCapped(rs: seq<Recipient>)
    ensures Keys(Capped(rs)) == Capped(Keys(rs))
  {
    hide KeyOf;
  }

  /** Cutting at every use equals cutting once: the list shows the first 20 distinct
      keys of the reversed history. */
  lemma {:induction false} CapLosesNothing(history: seq<Use>)
    ensures Keys(Recents(history)) == Capped(DistinctKeys(history))
    ensures NoDuplicates(Keys(Recents(history)))
  {
    DistinctKeysMeaning(history);
    if history != [] {
      var h, last := history[..|history| - 1], history[|history| - 1];
      CapLosesNothing(h);
      if Counts(last) {
        DistinctKeysMeaning(h);
        KeysAfterUse(Recents(h), last.entry, last.now);
        CutBeforeOrAfter(DistinctKeys(h), EntryKey(last.entry));
      }
    }
  }

  // ----- What the entries say

  ghost predicate MonotoneClock(history: seq<Use>) {
    forall i, j :: 0 <= i < j < |history| ==> history[i].now <= history[j].now
  }

  lemma {:induction false} OthersMembers(rs: seq<Recipient>, k: Key, r: Recipient)
    ensures r in Others(rs, k) <==> r in rs && KeyOf(r) != k
  {
    if rs != [] {
      OthersMembers(rs[1..], k, r);
      assert rs == [rs[0]] + rs[1..];
    }
  }

  /** An entry after a use is the one just used, or was there before. */
  lemma UsedMembers(rs: seq<Recipient>, e: Entry, now: int, r: Recipient)
    requires TrimmedAddress(e) != "" && r in Used(rs, e, now)
    ensures r == NextEntry(Find(rs, EntryKey(e)), e, now) || (r in rs && KeyOf(r) != EntryKey(e))
  {
    var all := [NextEntry(Find(rs, EntryKey(e)), e, now)] + Others(rs, EntryKey(e));
    assert r in all;
    OthersMembers(rs, EntryKey(e), r);
  }

  /** An entry's time is that of the last use of its key. */
  lemma {:induction false} LastUsedAtIsLastUse(history: seq<Use>, r: Recipient)
    requires r in Recents(history)
    ensures LastUse(history, KeyOf(r)) >= 0 && r.lastUsedAt == history[LastUse(history, KeyOf(r))].now
  {
    var h, last := history[..|history| - 1], history[|history| - 1];
    if Counts(last) {
      UsedMembers(Recents(h), last.entry, last.now, r);
      KeysAfterUse(Recents(h), last.entry, last.now);
      if KeyOf(r) != EntryKey(last.entry) {
        LastUsedAtIsLastUse(h, r);
      }
    } else {
      LastUsedAtIsLastUse(h, r);
    }
  }

  /** Under a clock that never goes back the list is newest first. */
  lemma NewestFirst(history: seq<Use>)
    requires MonotoneClock(history)
    ensures var rs := Recents(history);
            forall i, j :: 0 <= i < j < |rs| ==> rs[i].lastUsedAt >= rs[j].lastUsedAt
  {
    var rs, ks := Recents(history), DistinctKeys(history);
    CapLosesNothing(history);
    DistinctKeysMeaning(history);
    forall i, j | 0 <= i < j < |rs|
      ensures rs[i].lastUsedAt >= rs[j].lastUsedAt
    {
      LastUsedAtIsLastUse(history, rs[i]);
      LastUsedAtIsLastUse(history, rs[j]);
      assert Keys(rs)[i] == KeyOf(rs[i]) == ks[i];
      assert Keys(rs)[j] == KeyOf(rs[j]) == ks[j];
    }
  }

  function CountUses(history: seq<Use>, k: Key): nat {
    if history == [] then 0
    else
      var last := history[|history| - 1];
      CountUses(history[..|history| - 1], k) + if Counts(last) && EntryKey(last.entry) == k then 1 else 0
  }

  ghost predicate Listed(history: seq<Use>, k: Key) {
    k in Keys(Recents(history))
  }

  /** The use at which a listed key last came onto the list. */
  ghost function EnteredAt(history: seq<Use>, k: Key): (i: nat)
    requires Listed(history, k)
    ensures i < |history| && !Listed(history[..i], k)
  {
    var h := history[..|history| - 1];
    if !Listed(h, k) then |history| - 1
    else
      assert forall n :: 0 <= n <= |h| ==> h[..n] == history[..n];
      EnteredAt(h, k)
  }

  /** From then on the key was on the list all the time. */
  lemma {:induction false} ListedSinceEntry(history: seq<Use>, k: Key, n: nat)
    requires Listed(history, k) && EnteredAt(history, k) < n <= |history|
    ensures Listed(history[..n], k)
  {
    if n < |history| {
      var h := history[..|history| - 1];
      assert h[..n] == history[..n];
      ListedSinceEntry(h, k, n);
    } else {
      assert history[..n] == history;
    }
  }

  lemma KeyIsListed(history: seq<Use>, r: Recipient)
    requires r in Recents(history)
    ensures Listed(history, KeyOf(r))
  {
    var i :| 0 <= i < |Recents(history)| && Recents(history)[i] == r;
    assert Keys(Recents(history))[i] == KeyOf(r);
  }

  /** Where an entry comes from at a use: it is new, was used again, or was there before. */
  lemma EntryBefore(rs: seq<Recipient>, e: Entry, now: int, r: Recipient) returns (before: Option<Recipient>)
    requires TrimmedAddress(e) != "" && r in Used(rs, e, now)
    ensures before.Some? ==> before.value in rs && KeyOf(before.value) == KeyOf(r)
    ensures EntryKey(e) == KeyOf(r) ==> r == NextEntry(before, e, now) && (before.Some? <==> KeyOf(r) in Keys(rs))
    ensures EntryKey(e) != KeyOf(r) ==> before == Some(r)
  {
    UsedMembers(rs, e, now, r);
    KeysAfterUse(rs, e, now);
    FindFinds(rs, KeyOf(r));
    before := if EntryKey(e) == KeyOf(r) then Find(rs, KeyOf(r)) else Some(r);
  }

  /** The uses since a listed key came onto the list, one use later. */
  lemma SinceStep(history: seq<Use>, k: Key)
    requires Listed(history, k) && history != []
    ensures var h := history[..|history| - 1];
            history[EnteredAt(history, k)..] ==
            (if Listed(h, k) then h[EnteredAt(h, k)..] else []) + [history[|history| - 1]]
  {
    hide Listed;
    assert history == history[..|history| - 1] + [history[|history| - 1]];
  }

  /** The same at the last use of a history. */
  lemma LastStep(history: seq<Use>, r: Recipient) returns (before: Option<Recipient>)
    requires r in Recents(history)
    ensures Listed(history, KeyOf(r)) && history != []
    ensures var h, last := history[..|history| - 1], history[|history| - 1]; var k := KeyOf(r);
      && (before.Some? <==> Listed(h, k)) && (before.Some? ==> before.value in Recents(h) && KeyOf(before.value) == k)
      && (if Counts(last) && EntryKey(last.entry) == k then r == NextEntry(before, last.entry, last.now)
          else before == Some(r))
  {
    KeyIsListed(history, r);
    var h, last := history[..|history| - 1], history[|history| - 1];
    if Counts(last) {
      before := EntryBefore(Recents(h), last.entry, last.now, r);
    } else {
      before := Some(r);
    }
    if before.Some? {
      KeyIsListed(h, before.value);
    }
    hide Used, NextEntry, Keys;
  }

  /** An entry counts the uses of its key since the key came onto the list: a key
      that was cut starts again at one. */
  lemma {:induction false} UseCountSinceEntry(history: seq<Use>, r: Recipient)
    requires r in Recents(history)
    ensures Listed(history, KeyOf(r))
    ensures r.useCount == CountUses(history[EnteredAt(history, KeyOf(r))..], KeyOf(r))
  {
    var before := LastStep(history, r);
    SinceStep(history, KeyOf(r));
    var h, last, k := history[..|history| - 1], history[|history| - 1], KeyOf(r);
    hide Listed, EnteredAt, Recents, Counts;
    var earlier := if Listed(h, k) then h[EnteredAt(h, k)..] else [];
    assert (earlier + [last])[..|earlier|] == earlier;
    if before.Some? {
      UseCountSinceEntry(h, before.value);
    }
  }

  /** The label given last to `k` in a history, if any was. */
  function LastLabel(history: seq<Use>, k: Key): Option<string> {
    if history == [] then None
    else
      var last := history[|history| - 1];
      if Counts(last) && EntryKey(last.entry) == k && last.entry.labelText.Some? then last.entry.labelText
      else LastLabel(history[..|history| - 1], k)
  }

  /** An entry's label is the last one given since the key came onto the list: a use
      without a label keeps the old one. */
  lemma {:induction false} LabelSinceEntry(history: seq<Use>, r: Recipient)
    requires r in Recents(history)
    ensures Listed(history, KeyOf(r))
    ensures r.labelText == LastLabel(history[EnteredAt(history, KeyOf(r))..], KeyOf(r))
  {
    var before := LastStep(history, r);
    SinceStep(history, KeyOf(r));
    var h, last, k := history[..|history| - 1], history[|history| - 1], KeyOf(r);
    hide Listed, EnteredAt, Recents, Counts;
    var earlier := if Listed(h, k) then h[EnteredAt(h, k)..] else [];
    assert (earlier + [last])[..|earlier|] == earlier;
    if before.Some? {
      LabelSinceEntry(h, before.value);
    }
  }

  // ----- What counts as the same recipient

  predicate AllSpaces(s: string) {
    forall i :: 0 <= i < |s| ==> IsSpace(s[i])
  }

  lemma {:induction false} TrimsFront(pad: string, core: string)
    requires AllSpaces(pad)
    ensures TrimStart(pad + core) == TrimStart(core)
  {
    if pad == "" {
      assert pad + core == core;
    } else {
      assert (pad + core)[1..] == pad[1..] + core;
      TrimsFront(pad[1..], core);
    }
  }

  lemma {:induction false} TrimsBack(core: string, pad: string)
    requires AllSpaces(pad)
    ensures TrimEnd(core + pad) == TrimEnd(core)
  {
    if pad == "" {
      assert core + pad == core;
    } else {
      assert (core + pad)[..|core + pad| - 1] == core + pad[..|pad| - 1];
      TrimsBack(core, pad[..|pad| - 1]);
    }
  }

  /** White space around an address makes no difference; an address of nothing else is
      not recorded. */
  lemma PaddingIgnored(rs: seq<Recipient>, e: Entry, front: string, core: string, back: string, now: int)
    requires AllSpaces(front) && AllSpaces(back) && (core == "" || (!IsSpace(core[0]) && !IsSpace(core[|core| - 1])))
    requires e.address == Some(front + core + back)
    ensures Used(rs, e, now) == Used(rs, e.(address := Some(core)), now)
    ensures core == "" ==> Used(rs, e, now) == rs
    ensures core != "" ==> Used(rs, e, now) != [] && Used(rs, e, now)[0].address == core
  {
    PaddingTrims(front, core, back);
    TrimIsIdentity(core);
    var bare := e.(address := Some(core));
    assert EntryKey(e) == EntryKey(bare) && TrimmedAddress(bare) == core;
    hide Trim, Others, Find, Used;
    UsedPadded(rs, e, bare, now);
    if core != "" {
      KeysAfterUse(rs, bare, now);
      assert Keys(Used(rs, bare, now))[0] == EntryKey(bare);
    }
  }

  /** Only the trimmed address of an entry matters. */
  lemma UsedPadded(rs: seq<Recipient>, e: Entry, f: Entry, now: int)
    requires TrimmedAddress(e) == TrimmedAddress(f) && f == e.(address := f.address)
    ensures Used(rs, e, now) == Used(rs, f, now)
    ensures TrimmedAddress(e) == "" ==> Used(rs, e, now) == rs
  {
    hide TrimmedAddress, Find, Others;
  }

  lemma PaddingTrims(front: string, core: string, back: string)
    requires AllSpaces(front) && AllSpaces(back) && (core == "" || (!IsSpace(core[0]) && !IsSpace(core[|core| - 1])))
    ensures Trim(front + core + back) == core
  {
    assert front + core + back == front + (core + back);
    TrimsFront(front, core + back);
    if core == "" {
      assert core + back == back + "";
      TrimsFront(back, "");
    } else {
      TrimsBack(core, back);
      assert (core + back)[0] == core[0];
    }
  }

  lemma NoAddressIgnored(rs: seq<Recipient>, e: Entry, now: int)
    requires e.address == None
    ensures Used(rs, e, now) == rs
  {}

  /** The list holds every recipient ever used, up to twenty. */
  lemma ListLength(history: seq<Use>)
    ensures |Recents(history)| == if |DistinctKeys(history)| < 20 then |DistinctKeys(history)| else 20
  {
    CapLosesNothing(history);
  }

  /** The first use of a recipient makes an entry of it. */
  lemma FirstUse(e: Entry, core: string, now: int)
    requires e.address == Some(core) && core != "" && !IsSpace(core[0]) && !IsSpace(core[|core| - 1])
    ensures Recents([Use(e, now)]) == [Recipient(core, e.asset, e.network, e.mint, e.labelText, now, 1)]
  {
    TrimIsIdentity(core);
    assert [Use(e, now)][..0] == [];
    hide Trim;
    assert Others([], EntryKey(e)) == [] && Find([], EntryKey(e)) == None;
  }

  /** Two uses are of one recipient exactly when address, asset, network and mint agree,
      no mint being the empty one; the list then holds one entry, used twice. */
  lemma SecondUse(e: Entry, f: Entry, now: int, then_: int)
    requires TrimmedAddress(e) != "" && TrimmedAddress(f) != ""
    ensures var rs := Recents([Use(e, now), Use(f, then_)]);
      var same := TrimmedAddress(e) == TrimmedAddress(f) && e.asset == f.asset && e.network == f.network
                  && (if e.mint.Some? then e.mint.value else "") == (if f.mint.Some? then f.mint.value else "");
      && |rs| == (if same then 1 else 2) && rs[0].lastUsedAt == then_
      && rs[0].useCount == (if same then 2 else 1)
      && (!same ==> rs[1].lastUsedAt == now && rs[1].useCount == 1)
  {
    var h := [Use(e, now), Use(f, then_)];
    assert h[..1] == [Use(e, now)] && [Use(e, now)][..0] == [];
    hide TrimmedAddress;
    assert Others([], EntryKey(e)) == [] && Find([], EntryKey(e)) == None;
    var r := NextEntry(None, e, now);
    assert Recents([Use(e, now)]) == Used(Recents([]), e, now) == [r] + [] == [r];
    assert [r][1..] == [];
    var k := EntryKey(f);
    assert Find([r], k) == (if KeyOf(r) == k then Some(r) else None);
    assert Others([r], k) == (if KeyOf(r) == k then [] else [r]);
  }
}
