/** Bitcoin outputs: their protection (`btc-protection.ts`) and the choice of the
    largest that both kinds of send make. */
module Utxos {
  import opened Options

  /** What `BigInt(r.amount)` makes of a rune entry's amount. */
  datatype RuneAmount = NotAString | Garbage | Amount(value: int)

  datatype Utxo = Utxo(
    txid: string,
    vout: nat,
    value: nat,
    inscriptions: Option<seq<string>>,
    runes: Option<seq<RuneAmount>>,
    riskyRunes: Option<seq<RuneAmount>>)

  function InscriptionCount(u: Utxo): nat {
    if u.inscriptions.Some? then |u.inscriptions.value| else 0
  }

  /** An entry that locks its output: a positive amount, or one nobody can read. */
  predicate Locks(r: RuneAmount) {
    r.Garbage? || (r.Amount? && r.value > 0)
  }

  predicate CarriesRunes(runes: Option<seq<RuneAmount>>) {
    runes.Some? && exists i :: 0 <= i < |runes.value| && Locks(runes.value[i])
  }

  predicate IsProtected(u: Utxo) {
    InscriptionCount(u) > 0 || CarriesRunes(u.runes) || CarriesRunes(u.riskyRunes)
  }

  function Sum(us: seq<Utxo>): nat {
    if us == [] then 0 else us[0].value + Sum(us[1..])
  }

  /** The unprotected outputs, in order. */
  function Spendable(us: seq<Utxo>): seq<Utxo> {
    if us == [] then []
    else if IsProtected(us[0]) then Spendable(us[1..])
    else [us[0]] + Spendable(us[1..])
  }

  function ProtectedOnly(us: seq<Utxo>): seq<Utxo> {
    if us == [] then []
    else if IsProtected(us[0]) then [us[0]] + ProtectedOnly(us[1..])
    else ProtectedOnly(us[1..])
  }

  lemma {:induction false} SumConcat(a: seq<Utxo>, b: seq<Utxo>)
    ensures Sum(a + b) == Sum(a) + Sum(b)
  {
    if a == [] {
      assert a + b == b;
    } else {
      assert (a + b)[1..] == a[1..] + b;
      SumConcat(a[1..], b);
    }
  }

  lemma {:induction false} SpendableConcat(a: seq<Utxo>, u: Utxo)
    ensures Spendable(a + [u]) == if IsProtected(u) then Spendable(a) else Spendable(a) + [u]
    ensures ProtectedOnly(a + [u]) == if IsProtected(u) then ProtectedOnly(a) + [u] else ProtectedOnly(a)
  {
    hide IsProtected;
    if a == [] {
      assert a + [u] == [u];
      assert [u][1..] == [];
    } else {
      assert (a + [u])[1..] == a[1..] + [u];
      SpendableConcat(a[1..], u);
      assert Spendable(a) == if IsProtected(a[0]) then Spendable(a[1..]) else [a[0]] + Spendable(a[1..]);
      assert ProtectedOnly(a) == if IsProtected(a[0]) then [a[0]] + ProtectedOnly(a[1..]) else ProtectedOnly(a[1..]);
    }
  }

  /** The spendable outputs are exactly the unprotected ones. */
  lemma {:induction false} SpendableMembers(us: seq<Utxo>, u: Utxo)
    ensures u in Spendable(us) <==> u in us && !IsProtected(u)
  {
    hide IsProtected;
    if us != [] {
      SpendableMembers(us[1..], u);
      assert us == [us[0]] + us[1..];
    }
  }

  /** Nothing in the entries locks the output: each is no text, or an amount that is not
      positive. */
  ghost predicate NothingLocked(runes: Option<seq<RuneAmount>>) {
    runes.Some? ==> forall r :: r in runes.value ==> r == NotAString || (r.Amount? && r.value <= 0)
  }

  /** They are the outputs without inscriptions, runes or runes at risk. */
  lemma SpendableAreBare(us: seq<Utxo>, u: Utxo)
    ensures u in Spendable(us) <==>
            && u in us && (u.inscriptions.Some? ==> u.inscriptions.value == [])
            && NothingLocked(u.runes) && NothingLocked(u.riskyRunes)
  {
    SpendableMembers(us, u);
    NothingLockedIs(u.runes);
    NothingLockedIs(u.riskyRunes);
    hide CarriesRunes, NothingLocked, Spendable;
  }

  lemma NothingLockedIs(runes: Option<seq<RuneAmount>>)
    ensures NothingLocked(runes) <==> !CarriesRunes(runes)
  {
    if runes.Some? {
      assert forall i :: 0 <= i < |runes.value| ==> runes.value[i] in runes.value;
    }
  }

  /** Nothing is lost: the two sides hold every output, with its multiplicity. */
  lemma {:induction false} PartitionIsWhole(us: seq<Utxo>)
    ensures multiset(Spendable(us)) + multiset(ProtectedOnly(us)) == multiset(us)
    ensures Sum(Spendable(us)) + Sum(ProtectedOnly(us)) == Sum(us)
  {
    hide IsProtected;
    if us != [] {
      PartitionIsWhole(us[1..]);
      assert us == [us[0]] + us[1..];
      SumConcat([us[0]], Spendable(us[1..]));
      SumConcat([us[0]], ProtectedOnly(us[1..]));
    }
  }

  method NonZeroRuneCount(runes: Option<seq<RuneAmount>>) returns (n: nat)
    ensures n > 0 <==> CarriesRunes(runes)
  {
    if runes == None {
      return 0;
    }
    n := 0;
    for i := 0 to |runes.value|
      invariant n > 0 <==> exists k :: 0 <= k < i && Locks(runes.value[k])
    {
      match runes.value[i]
      case NotAString =>
      case Garbage => n := n + 1;
      case Amount(v) => if v > 0 { n := n + 1; }
    }
  }

  method IsProtectedUtxo(u: Utxo) returns (b: bool)
    ensures b == IsProtected(u)
  {
    var runes := NonZeroRuneCount(u.runes);
    var risky := NonZeroRuneCount(u.riskyRunes);
    return InscriptionCount(u) > 0 || runes > 0 || risky > 0;
  }

  method PartitionByProtection(us: seq<Utxo>)
    returns (spendable: seq<Utxo>, protected: seq<Utxo>, spendableSats: nat, protectedSats: nat)
    ensures spendable == Spendable(us) && spendableSats == Sum(spendable)
    ensures protected == ProtectedOnly(us) && protectedSats == Sum(protected)
  {
    hide IsProtected, Sum;
    spendable, protected, spendableSats, protectedSats := [], [], 0, 0;
    SumNone();
    for i := 0 to |us|
      invariant spendable == Spendable(us[..i]) && spendableSats == Sum(spendable)
      invariant protected == ProtectedOnly(us[..i]) && protectedSats == Sum(protected)
    {
      assert us[..i + 1] == us[..i] + [us[i]];
      SpendableConcat(us[..i], us[i]);
      SumConcat(spendable, [us[i]]);
      SumConcat(protected, [us[i]]);
      SumOne(us[i]);
      var isProtected := IsProtectedUtxo(us[i]);
      if isProtected {
        protected := protected + [us[i]];
        protectedSats := protectedSats + us[i].value;
      } else {
        spendable := spendable + [us[i]];
        spendableSats := spendableSats + us[i].value;
      }
    }
    assert us[..|us|] == us;
  }

  // ----- Largest first

  ghost predicate Descending(us: seq<Utxo>) {
    forall i, j :: 0 <= i < j < |us| ==> us[i].value >= us[j].value
  }

  /** `sort((a, b) => b.value - a.value)`, which is stable. */
  function SortDescending(us: seq<Utxo>): seq<Utxo> {
    if us == [] then [] else Insert(us[0], SortDescending(us[1..]))
  }

  function Insert(u: Utxo, us: seq<Utxo>): seq<Utxo> {
    if us == [] || u.value >= us[0].value then [u] + us else [us[0]] + Insert(u, us[1..])
  }

  lemma {:induction false} InsertKeeps(u: Utxo, us: seq<Utxo>)
    requires Descending(us)
    ensures multiset(Insert(u, us)) == multiset{u} + multiset(us)
    ensures Descending(Insert(u, us))
    ensures Insert(u, us) != [] && (Insert(u, us)[0] == u || (us != [] && Insert(u, us)[0] == us[0]))
  {
    if us == [] || u.value >= us[0].value {
    } else {
      InsertKeeps(u, us[1..]);
      assert us == [us[0]] + us[1..];
      ConsDescending(us[0], Insert(u, us[1..]));
    }
  }

  lemma ConsDescending(u: Utxo, us: seq<Utxo>)
    requires Descending(us) && us != [] && u.value >= us[0].value
    ensures Descending([u] + us)
  {}

  lemma {:induction false} SortKeeps(us: seq<Utxo>)
    ensures multiset(SortDescending(us)) == multiset(us) && Descending(SortDescending(us))
    ensures Sum(SortDescending(us)) == Sum(us)
  {
    if us != [] {
      assert us == [us[0]] + us[1..];
      SortKeeps(us[1..]);
      InsertKeeps(us[0], SortDescending(us[1..]));
      InsertSum(us[0], SortDescending(us[1..]));
    }
  }

  /** The outputs of one value, in order. */
  function OfValue(us: seq<Utxo>, v: nat): seq<Utxo> {
    if us == [] then []
    else if us[0].value == v then [us[0]] + OfValue(us[1..], v)
    else OfValue(us[1..], v)
  }

  lemma {:induction false} InsertStable(u: Utxo, us: seq<Utxo>, v: nat)
    requires Descending(us)
    ensures OfValue(Insert(u, us), v) == if u.value == v then [u] + OfValue(us, v) else OfValue(us, v)
  {
    if us == [] || u.value >= us[0].value {
      assert ([u] + us)[1..] == us;
    } else {
      InsertStable(u, us[1..], v);
      assert ([us[0]] + Insert(u, us[1..]))[1..] == Insert(u, us[1..]);
    }
  }

  /** The sort is stable: outputs of the same value keep their order. */
  lemma {:induction false} SortIsStable(us: seq<Utxo>, v: nat)
    ensures OfValue(SortDescending(us), v) == OfValue(us, v)
  {
    if us != [] {
      SortIsStable(us[1..], v);
      SortKeeps(us[1..]);
      InsertStable(us[0], SortDescending(us[1..]), v);
    }
  }

  lemma {:induction false} InsertSum(u: Utxo, us: seq<Utxo>)
    ensures Sum(Insert(u, us)) == u.value + Sum(us)
  {
    if us == [] || u.value >= us[0].value {
      assert ([u] + us)[1..] == us;
    } else {
      InsertSum(u, us[1..]);
      assert ([us[0]] + Insert(u, us[1..]))[1..] == Insert(u, us[1..]);
    }
  }

  lemma SumOne(u: Utxo)
    ensures Sum([u]) == u.value
  {
    assert [u][1..] == [];
  }

  lemma SumNone()
    ensures Sum([]) == 0
  {}

  lemma WithoutAt(us: seq<Utxo>, i: nat)
    requires i < |us|
    ensures multiset(us[..i] + us[i + 1..]) == multiset(us) - multiset{us[i]}
    ensures Sum(us) == us[i].value + Sum(us[..i] + us[i + 1..])
  {
    hide Sum;
    var front, back := us[..i], us[i + 1..];
    assert us == front + ([us[i]] + back);
    SumConcat(front, [us[i]] + back);
    SumConcat([us[i]], back);
    SumOne(us[i]);
    SumConcat(front, back);
  }

  lemma {:induction false} ShiftedSum(us: seq<Utxo>, k: nat)
    requires Descending(us) && k < |us|
    ensures Sum(us[1..][..k]) <= Sum(us[..k])
  {
    if k > 0 {
      assert us[..k] == [us[0]] + us[1..k];
      assert us[1..][..k] == us[1..k] + [us[k]];
      SumConcat(us[1..k], [us[k]]);
      SumConcat([us[0]], us[1..k]);
    }
  }

  /** No `k` outputs of a list are worth more than its `k` largest. */
  lemma {:induction false} LargestAreWorthMost(us: seq<Utxo>, pick: seq<Utxo>)
    requires Descending(us) && multiset(pick) <= multiset(us)
    ensures |pick| <= |us| && Sum(pick) <= Sum(us[..|pick|])
  {
    hide Sum;
    SubsetSize(us, pick);
    SumNone();
    if pick == [] {
      assert us[..0] == [];
    } else {
      var u, tail := us[0], us[1..];
      assert us == [u] + tail;
      if u in multiset(pick) {
        var rest := WithoutFirst(u, pick, tail);
        LargestAreWorthMost(tail, rest);
        FirstThenPrefix(us, |rest|);
      } else {
        NotIn(u, pick, tail);
        LargestAreWorthMost(tail, pick);
        ShiftedSum(us, |pick|);
      }
    }
  }

  lemma WithoutFirst(u: Utxo, pick: seq<Utxo>, tail: seq<Utxo>) returns (rest: seq<Utxo>)
    requires u in multiset(pick) && multiset(pick) <= multiset([u] + tail)
    ensures |rest| == |pick| - 1 && multiset(rest) <= multiset(tail) && Sum(pick) == u.value + Sum(rest)
  {
    var i := PositionOf(pick, u);
    rest := pick[..i] + pick[i + 1..];
    WithoutAt(pick, i);
    hide Sum;
    assert multiset([u] + tail) == multiset{u} + multiset(tail);
  }

  lemma FirstThenPrefix(us: seq<Utxo>, k: nat)
    requires k < |us|
    ensures Sum(us[..k + 1]) == us[0].value + Sum(us[1..][..k])
  {
    hide Sum;
    assert us[..k + 1] == [us[0]] + us[1..][..k];
    SumConcat([us[0]], us[1..][..k]);
    SumOne(us[0]);
  }

  lemma PositionOf(us: seq<Utxo>, u: Utxo) returns (i: nat)
    requires u in multiset(us)
    ensures i < |us| && us[i] == u
  {
    assert u in us;
    i :| 0 <= i < |us| && us[i] == u;
  }

  lemma SubsetSize(us: seq<Utxo>, pick: seq<Utxo>)
    requires multiset(pick) <= multiset(us)
    ensures |pick| <= |us|
  {
    assert multiset(us) == multiset(pick) + (multiset(us) - multiset(pick));
    assert |multiset(us)| == |us| && |multiset(pick)| == |pick|;
  }

  lemma NotIn(u: Utxo, pick: seq<Utxo>, tail: seq<Utxo>)
    requires u !in multiset(pick) && multiset(pick) <= multiset([u] + tail)
    ensures multiset(pick) <= multiset(tail)
  {
    assert multiset([u] + tail) == multiset{u} + multiset(tail);
    forall x
      ensures multiset(pick)[x] <= multiset(tail)[x]
    {
      assert multiset(pick)[x] <= multiset([u] + tail)[x];
    }
  }

  lemma {:induction false} PrefixSum(us: seq<Utxo>, i: nat, j: nat)
    requires i <= j <= |us|
    ensures Sum(us[..i]) <= Sum(us[..j])
  {
    assert us[..j] == us[..i] + us[i..j];
    SumConcat(us[..i], us[i..j]);
  }

  /** The first outputs of a descending list, cut off as soon as they reach
      `needed`, are as few as any choice that reaches it. */
  lemma GreedyIsFewest(pool: seq<Utxo>, sorted: seq<Utxo>, k: nat, needed: int, pick: seq<Utxo>)
    requires Descending(sorted) && multiset(sorted) == multiset(pool)
    requires 0 < k <= |sorted| && Sum(sorted[..k - 1]) < needed
    requires multiset(pick) <= multiset(pool) && Sum(pick) >= needed
    ensures k <= |pick|
  {
    LargestAreWorthMost(sorted, pick);
    if |pick| < k {
      PrefixSum(sorted, |pick|, k - 1);
    }
  }

  lemma PrefixIsWithin(us: seq<Utxo>, i: nat)
    requires i <= |us|
    ensures multiset(us[..i]) <= multiset(us)
  {
    assert us == us[..i] + us[i..];
  }

  /** `few` is a choice from `pool` reaching `needed`, with as few outputs as any. */
  ghost predicate FewestReaching(few: seq<Utxo>, pool: seq<Utxo>, needed: int) {
    && multiset(few) <= multiset(pool) && Sum(few) >= needed
    && forall pick: seq<Utxo> :: multiset(pick) <= multiset(pool) && Sum(pick) >= needed ==> |few| <= |pick|
  }

  /** `k` is the least number of outputs, but at least one, whose sum reaches `need`, or
      all of them when none does. */
  ghost predicate LeastCount(sorted: seq<Utxo>, need: int, k: nat) {
    && 1 <= k <= |sorted| && (k < |sorted| ==> Sum(sorted[..k]) >= need)
    && forall j :: 1 <= j < k ==> Sum(sorted[..j]) < need
  }

  function CountFrom(sorted: seq<Utxo>, need: int, k: nat): (n: nat)
    requires 1 <= k <= |sorted| && forall j :: 1 <= j < k ==> Sum(sorted[..j]) < need
    ensures LeastCount(sorted, need, n)
    decreases |sorted| - k
  {
    if k == |sorted| || Sum(sorted[..k]) >= need then k else CountFrom(sorted, need, k + 1)
  }

  /** How many outputs a selection takes from a descending list. */
  function InputCount(sorted: seq<Utxo>, need: int): (n: nat)
    ensures n <= |sorted| && (n == 0 <==> sorted == [])
    ensures sorted != [] ==> LeastCount(sorted, need, n)
  {
    if sorted == [] then 0 else CountFrom(sorted, need, 1)
  }

  lemma LeastCountIsUnique(sorted: seq<Utxo>, need: int, k: nat)
    requires LeastCount(sorted, need, k)
    ensures InputCount(sorted, need) == k
  {
    hide Sum;
  }

  /** The outputs a selection from `pool` takes. */
  function Largest(pool: seq<Utxo>, need: int): seq<Utxo> {
    SortDescending(pool)[..InputCount(SortDescending(pool), need)]
  }

  lemma TakenIsLargest(pool: seq<Utxo>, need: int, k: nat)
    requires var sorted := SortDescending(pool);
      k <= |sorted| && (k < |sorted| ==> k > 0 && Sum(sorted[..k]) >= need) && (k > 1 ==> Sum(sorted[..k - 1]) < need)
    ensures Largest(pool, need) == SortDescending(pool)[..k]
  {
    var sorted := SortDescending(pool);
    hide Sum, SortDescending;
    if k > 0 {
      forall j | 1 <= j < k
        ensures Sum(sorted[..j]) < need
      {
        PrefixSum(sorted, j, k - 1);
      }
      LeastCountIsUnique(sorted, need, k);
    }
  }

  /** They reach the need whenever the pool does. */
  lemma LargestReach(pool: seq<Utxo>, need: int)
    ensures Sum(Largest(pool, need)) >= need <==> Sum(pool) >= need
    ensures Sum(Largest(pool, need)) <= Sum(pool)
    ensures multiset(Largest(pool, need)) <= multiset(pool)
  {
    hide Sum, SortDescending;
    SortKeeps(pool);
    var sorted, k := SortDescending(pool), InputCount(SortDescending(pool), need);
    PrefixSum(sorted, k, |sorted|);
    PrefixIsWithin(sorted, k);
    assert sorted[..|sorted|] == sorted;
  }

  lemma PrefixIsFewest(pool: seq<Utxo>, sorted: seq<Utxo>, k: nat, needed: int)
    requires Descending(sorted) && multiset(sorted) == multiset(pool)
    requires k <= |sorted| && Sum(sorted[..k]) >= needed && (k > 0 ==> Sum(sorted[..k - 1]) < needed)
    ensures FewestReaching(sorted[..k], pool, needed)
  {
    PrefixIsWithin(sorted, k);
    forall pick: seq<Utxo> | multiset(pick) <= multiset(pool) && Sum(pick) >= needed
      ensures k <= |pick|
    {
      if k > 0 {
        GreedyIsFewest(pool, sorted, k, needed, pick);
      }
    }
  }

  /** They are as few as any choice that reaches the need, but at least one. */
  lemma LargestIsFewest(pool: seq<Utxo>, need: int)
    requires Sum(pool) >= need
    ensures need > 0 ==> Largest(pool, need) != [] && FewestReaching(Largest(pool, need), pool, need)
    ensures need <= 0 ==> |Largest(pool, need)| == if pool == [] then 0 else 1
  {
    var sorted, k := SortDescending(pool), InputCount(SortDescending(pool), need);
    SortKeeps(pool);
    LargestReach(pool, need);
    SumNone();
    hide Sum, SortDescending;
    assert |multiset(sorted)| == |sorted| && |multiset(pool)| == |pool|;
    if need > 0 {
      assert sorted[..0] == [];
      PrefixIsFewest(pool, sorted, k, need);
    }
  }
}
