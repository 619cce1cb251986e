/** Whole runs of the keystore's operations, of any number of realms and with the
    announcements arriving late. */
module KeystoreRuns {
  import opened Options
  import opened KeystoreParts

  datatype Action =
    | SealOp(r: RealmId, password: Password, plaintext: Plaintext, salt: nat, iv: nat, now: int)
    | UnlockOp(r: RealmId, password: Password)
    | ReadOp(r: RealmId)
    | WriteOp(r: RealmId, plaintext: Plaintext, iv: nat, now: int)
    | ChangeOp(r: RealmId, oldPassword: Password, newPassword: Password, salt: nat, iv: nat, now: int)
    | LockOp(r: RealmId)
    | WipeOp(r: RealmId)
    | Announce(r: RealmId)

  /** The storage with, as history, the password set last and the state saved last. */
  datatype World = World(s: Storage, password: Password, saved: Plaintext)

  function Step(w: World, a: Action): World {
    match a
    case SealOp(r, password, plaintext, salt, iv, now) =>
      var (s, result) := Seal(w.s, r, password, plaintext, salt, iv, now);
      if result.Ok? then World(s, password, plaintext) else w.(s := s)
    case UnlockOp(r, password) => w.(s := Unlock(w.s, r, password).0)
    case ReadOp(r) => w.(s := Read(w.s, r).0)
    case WriteOp(r, plaintext, iv, now) =>
      var (s, result) := Write(w.s, r, plaintext, iv, now);
      if result.Ok? then w.(s := s, saved := plaintext) else w.(s := s)
    case ChangeOp(r, oldPassword, newPassword, salt, iv, now) =>
      var (s, result) := ChangePassword(w.s, r, oldPassword, newPassword, salt, iv, now);
      if result.Ok? then w.(s := s, password := newPassword) else w.(s := s)
    case LockOp(r) => w.(s := ClearKey(w.s, r))
    case WipeOp(r) => w.(s := Wipe(w.s, r))
    case Announce(r) => w.(s := Announced(w.s, r))
  }

  function Run(w: World, actions: seq<Action>): World {
    if actions == [] then w else Step(Run(w, actions[..|actions| - 1]), actions[|actions| - 1])
  }

  const START := World(Storage(None, None, None, 0, map[]), "", "")

  /** The key of the current password for the stored blob. */
  function CurrentKey(w: World): CryptoKey
    requires w.s.blob.Some?
  {
    Derived(w.password, w.s.blob.value.salt, w.s.blob.value.iterations)
  }

  /** The stored blob is the last saved state under the current password. */
  ghost predicate BlobOk(w: World) {
    w.s.blob.Some? ==>
      w.s.blob.value.ciphertext == Encrypted(CurrentKey(w), w.s.blob.value.iv, w.saved)
  }

  ghost predicate RealmOk(s: Storage, r: RealmId) {
    && RealmOf(s, r).heard <= s.announced
    && (UpToDate(s, r) && RealmOf(s, r).cached.Some? ==> RealmOf(s, r).cached == s.session)
  }

  /** Keys in session storage are current; a cached key is the one in session storage
      unless its realm has yet to hear an announcement. */
  ghost predicate KeysOk(w: World) {
    && (w.s.session.Some? ==> w.s.blob.Some? && w.s.session.value == CurrentKey(w))
    && forall r :: r in w.s.realms ==> RealmOk(w.s, r)
  }

  ghost predicate Good(w: World) {
    BlobOk(w) && KeysOk(w)
  }

  /** A save in a realm whose key is no longer the current one. */
  ghost predicate StaleWrite(w: World, a: Action) {
    a.WriteOp? && w.s.blob.Some? && LoadedKey(w.s, a.r).Some? && LoadedKey(w.s, a.r).value != CurrentKey(w)
  }

  /** Putting a key in the session copy, from realm `r`, which caches it too. */
  lemma SaveKeepsRealms(s: Storage, r: RealmId, key: Option<CryptoKey>)
    requires forall q :: q in s.realms ==> RealmOk(s, q)
    ensures var v := SetSession(Cache(s, r, key), key);
            v.session == key && v.blob == s.blob && forall q :: q in v.realms ==> RealmOk(v, q)
  {
    var v := SetSession(Cache(s, r, key), key);
    forall q | q in v.realms
      ensures RealmOk(v, q)
    {
      if q != r {
        assert RealmOk(s, q);
      } else if r in s.realms {
        assert RealmOk(s, r);
      }
    }
  }

  lemma LoadKeepsRealms(s: Storage, r: RealmId)
    requires forall q :: q in s.realms ==> RealmOk(s, q)
    ensures var v := LoadKey(s, r);
            v.session == s.session && v.blob == s.blob && forall q :: q in v.realms ==> RealmOk(v, q)
  {
    var v := LoadKey(s, r);
    forall q | q in v.realms
      ensures RealmOk(v, q)
    {
      if q in s.realms {
        assert RealmOk(s, q);
      }
    }
  }

  lemma SealKeepsGood(w: World, r: RealmId, password: Password, plaintext: Plaintext, salt: nat, iv: nat, now: int)
    requires Good(w)
    ensures Good(World(Sealed(w.s, r, password, plaintext, salt, iv, now), password, plaintext))
  {
    var key := Derived(password, salt, PBKDF2_ITERATIONS);
    var s1 := w.s.(blob := Some(Blob(salt, iv, Encrypted(key, iv, plaintext), PBKDF2_ITERATIONS, now, now)));
    assert forall q :: q in s1.realms ==> RealmOk(w.s, q);
    SaveKeepsRealms(s1, r, Some(key));
    var v := Sealed(w.s, r, password, plaintext, salt, iv, now);
    assert forall q :: q in v.realms ==> RealmOk(SaveKey(s1, r, key), q);
  }

  lemma UnlockKeepsGood(w: World, r: RealmId, password: Password)
    requires Good(w)
    ensures Good(w.(s := Unlock(w.s, r, password).0))
  {
    if w.s.blob.Some? {
      SaveKeepsRealms(w.s, r, Some(CurrentKey(w)));
    }
  }

  lemma ClearKeepsGood(w: World, r: RealmId)
    requires Good(w)
    ensures Good(w.(s := ClearKey(w.s, r))) && Good(w.(s := Wipe(w.s, r)))
  {
    SaveKeepsRealms(w.s, r, None);
    var s1 := w.s.(blob := None, legacy := None);
    assert forall q :: q in s1.realms ==> RealmOk(w.s, q);
    SaveKeepsRealms(s1, r, None);
  }

  lemma ReadKeepsGood(w: World, r: RealmId)
    requires Good(w)
    ensures Good(w.(s := Read(w.s, r).0))
  {
    LoadKeepsRealms(w.s, r);
    ClearKeepsGood(w.(s := LoadKey(w.s, r)), r);
  }

  /** Every other step keeps the keystore good, whatever announcements are still
      under way; a save does exactly when it is not stale. */
  lemma StepKeepsGood(w: World, a: Action)
    requires Good(w)
    ensures !StaleWrite(w, a) ==> Good(Step(w, a))
    ensures StaleWrite(w, a) ==> !BlobOk(Step(w, a))
  {
    match a
    case SealOp(r, password, plaintext, salt, iv, now) =>
      SealKeepsGood(w, r, password, plaintext, salt, iv, now);
    case UnlockOp(r, password) => UnlockKeepsGood(w, r, password);
    case ReadOp(r) => ReadKeepsGood(w, r);
    case WriteOp(r, plaintext, iv, now) =>
      LoadKeepsRealms(w.s, r);
      var v := Write(w.s, r, plaintext, iv, now).0;
      assert forall q :: q in v.realms ==> RealmOk(LoadKey(w.s, r), q);
    case ChangeOp(r, oldPassword, newPassword, salt, iv, now) =>
      UnlockKeepsGood(w, r, oldPassword);
      var w1 := w.(s := Unlock(w.s, r, oldPassword).0);
      SealKeepsGood(w1, r, newPassword, w.saved, salt, iv, now);
    case LockOp(r) => ClearKeepsGood(w, r);
    case WipeOp(r) => ClearKeepsGood(w, r);
    case Announce(r) =>
      var v := Announced(w.s, r);
      forall q | q in v.realms
        ensures RealmOk(v, q)
      {
        if q in w.s.realms {
          assert RealmOk(w.s, q);
        }
      }
  }

  ghost predicate NoStaleWrite(w: World, actions: seq<Action>) {
    forall i :: 0 <= i < |actions| ==> !StaleWrite(Run(w, actions[..i]), actions[i])
  }

  /** After any run without a stale save, of any number of realms, ... */
  lemma {:induction false} RunKeepsGood(actions: seq<Action>)
    requires NoStaleWrite(START, actions)
    ensures Good(Run(START, actions))
  {
    if actions != [] {
      var before := actions[..|actions| - 1];
      forall i | 0 <= i < |before|
        ensures !StaleWrite(Run(START, before[..i]), before[i])
      {
        assert before[..i] == actions[..i] && before[i] == actions[i];
      }
      RunKeepsGood(before);
      assert before == actions[..|actions| - 1];
      assert !StaleWrite(Run(START, actions[..|actions| - 1]), actions[|actions| - 1]);
      hide Good, StaleWrite, Step;
      StepKeepsGood(Run(START, before), actions[|actions| - 1]);
    }
  }

  /** ... the current password, and no other, unlocks to the state saved last, ... */
  lemma CurrentPasswordUnlocks(w: World, r: RealmId, password: Password)
    requires Good(w) && w.s.blob.Some?
    ensures Unlock(w.s, r, password).1 == (if password == w.password then Ok(w.saved) else WrongPassword)
  {}

  /** ... `read` returns that state exactly when the realm's key is the current one,
      which in a realm that is up to date is when the keystore is unlocked, ... */
  lemma ReadReturnsSaved(w: World, r: RealmId)
    requires Good(w)
    ensures Read(w.s, r).1 == Some(w.saved) <==> w.s.blob.Some? && LoadedKey(w.s, r) == Some(CurrentKey(w))
    ensures Read(w.s, r).1.Some? ==> Read(w.s, r).1 == Some(w.saved)
    ensures UpToDate(w.s, r) ==> (Read(w.s, r).1 == Some(w.saved) <==> w.s.session.Some?)
  {}

  /** ... and every cached key is absent, current, or about to be dropped. */
  lemma CachedKeysAreCurrent(w: World, r: RealmId)
    requires Good(w) && UpToDate(w.s, r)
    ensures RealmOf(w.s, r).cached.Some? ==> w.s.blob.Some? && RealmOf(w.s, r).cached.value == CurrentKey(w)
    ensures forall a: Action :: a.WriteOp? && a.r == r ==> !StaleWrite(w, a)
  {}

  /** The keystore is unlocked by a seal, by the current password and by nothing
      else; a lock and a wipe lock it, and so does a read that finds its key stale. */
  lemma WhatUnlocks(w: World, a: Action)
    requires Good(w)
    ensures Step(w, a).s.session.Some? <==>
      match a
      case SealOp(_, password, _, _, _, _) => |password| >= 8 || w.s.session.Some?
      case UnlockOp(_, password) => (w.s.blob.Some? && password == w.password) || w.s.session.Some?
      case ChangeOp(_, old_, new_, _, _, _) =>
        (|new_| >= 8 && w.s.blob.Some? && old_ == w.password) || w.s.session.Some?
      case ReadOp(r) =>
        w.s.session.Some? && (LoadedKey(w.s, r) == Some(CurrentKey(w)))
      case WriteOp(_, _, _, _) => w.s.session.Some?
      case Announce(_) => w.s.session.Some?
      case LockOp(_) => false
      case WipeOp(_) => false
  {
    hide RealmOk;
  }

  /** With every announcement delivered before the next operation, no save is
      stale: then all of the above holds after every run. */
  lemma {:induction false} PromptRunsAreGood(actions: seq<Action>)
    requires forall i :: 0 <= i < |actions| && !actions[i].Announce?
               ==> UpToDate(Run(START, actions[..i]).s, actions[i].r)
    ensures NoStaleWrite(START, actions) && Good(Run(START, actions))
  {
    if actions == [] {
      assert NoStaleWrite(START, actions);
    } else {
      var before, last := actions[..|actions| - 1], actions[|actions| - 1];
      forall i | 0 <= i < |before|
        ensures before[..i] == actions[..i] && before[i] == actions[i]
      {}
      PromptRunsAreGood(before);
      var w := Run(START, before);
      assert actions[..|actions| - 1] == before;
      if last.WriteOp? {
        CachedKeysAreCurrent(w, last.r);
      }
      assert !StaleWrite(w, last);
      hide Good, Run, Step, StaleWrite;
      forall i | 0 <= i < |actions|
        ensures !StaleWrite(Run(START, actions[..i]), actions[i])
      {
        if i < |before| {
          assert !StaleWrite(Run(START, before[..i]), before[i]);
        }
      }
      RunKeepsGood(actions);
    }
  }

  /** What a stale save does: it seals the state under a key that only its own
      password and the blob's own salt can give.  When the salt has changed since
      that key was made, no password opens the keystore any more. */
  lemma StaleWriteLocksOut(w: World, a: Action, r: RealmId, password: Password)
    requires Good(w) && StaleWrite(w, a)
    ensures var key := LoadedKey(w.s, a.r).value;
            Unlock(Step(w, a).s, r, password).1.Ok? <==>
            Derived(password, w.s.blob.value.salt, w.s.blob.value.iterations) == key
    ensures LoadedKey(w.s, a.r).value.salt != w.s.blob.value.salt ==>
              Unlock(Step(w, a).s, r, password).1 == WrongPassword
  {}

  // ----- What each operation leaves, and when it fails

  /** After a wipe nothing is left: no password unlocks, nothing is read or written, and
      the plaintext of an old installation is gone too. */
  lemma WipeForgets(s: Storage, r: RealmId, q: RealmId, password: Password, plaintext: Plaintext, iv: nat, now: int)
    ensures var v := Wipe(s, r);
      && v.blob == None && v.legacy == None && v.session == None && RealmOf(v, r).cached == None
      && Unlock(v, q, password) == (v, NotInitialized) && Read(v, q) == (v, None)
      && Write(v, q, plaintext, iv, now) == (v, NotInitialized)
      && ChangePassword(v, q, password, "12345678", 0, iv, now) == (v, NotInitialized)
  {}

  /** A lock keeps the blob and takes both copies of the key: the realm that locks reads
      and writes nothing until it is unlocked again. */
  lemma LockKeepsBlob(s: Storage, r: RealmId, plaintext: Plaintext, iv: nat, now: int)
    ensures var v := ClearKey(s, r);
      && v.blob == s.blob && v.legacy == s.legacy && v.session == None && RealmOf(v, r).cached == None
      && Read(v, r) == (v, None)
      && (s.blob.Some? ==> Write(v, r, plaintext, iv, now) == (v, Locked))
  {}

  /** A seal needs eight characters.  It takes the place of whatever was stored, and the
      plaintext of an old installation goes. */
  lemma SealReplaces(s: Storage, r: RealmId, password: Password, plaintext: Plaintext, salt: nat, iv: nat, now: int)
    ensures var (v, result) := Seal(s, r, password, plaintext, salt, iv, now);
      && (|password| < 8 ==> v == s && result == PasswordTooShort)
      && (|password| >= 8 ==>
            && result == Ok(()) && v.legacy == None && v.blob.Some?
            && v.blob.value.salt == salt && v.blob.value.iv == iv && v.blob.value.iterations == 600_000
            && v.blob.value.createdAt == now == v.blob.value.updatedAt
            && Read(v, r).1 == Some(plaintext) && Unlock(v, r, password).1 == Ok(plaintext))
  {}

  /** A save needs a blob and a key; it leaves salt, iterations and the time of creation. */
  lemma WriteKeepsTheRest(s: Storage, r: RealmId, plaintext: Plaintext, iv: nat, now: int)
    ensures var (v, result) := Write(s, r, plaintext, iv, now);
      && (s.blob == None ==> v == s && result == NotInitialized)
      && (s.blob.Some? && RealmOf(s, r).cached == None && s.session == None ==> v == s && result == Locked)
      && (s.blob.Some? && (RealmOf(s, r).cached.Some? || s.session.Some?) ==>
            && result == Ok(()) && v.legacy == s.legacy && v.session == s.session && v.blob.Some?
            && v.blob.value.salt == s.blob.value.salt && v.blob.value.iterations == s.blob.value.iterations
            && v.blob.value.createdAt == s.blob.value.createdAt
            && v.blob.value.iv == iv && v.blob.value.updatedAt == now
            && Read(v, r).1 == Some(plaintext))
  {}

  /** A change of password with too short a new one, a wrong old one or no blob leaves the
      storage as it is; otherwise the new password opens what the old one did. */
  lemma ChangeOrNothing(s: Storage, r: RealmId, old_: Password, new_: Password, salt: nat, iv: nat, now: int)
    ensures var (v, result) := ChangePassword(s, r, old_, new_, salt, iv, now);
      && (|new_| < 8 ==> v == s && result == PasswordTooShort)
      && (|new_| >= 8 && !Unlock(s, r, old_).1.Ok? ==>
            v == s && result == if s.blob == None then NotInitialized else WrongPassword)
      && (|new_| >= 8 && Unlock(s, r, old_).1.Ok? ==> result == Ok(()) && Unlock(v, r, new_).1 == Unlock(s, r, old_).1)
  {}

  lemma RunThree(a: Action, b: Action, c: Action)
    ensures Run(START, [a, b, c]) == Step(Step(Step(START, a), b), c)
  {
    hide Step;
    assert [a, b, c][..2] == [a, b] && [a, b][..1] == [a] && [a][..0] == [];
    assert Run(START, [a]) == Step(START, a);
    assert Run(START, [a, b]) == Step(Run(START, [a]), b);
  }

  /** Such a save happens: realm 2 has the key cached while realm 1 changes the
      password, and saves before it hears of that. */
  lemma StaleWriteHappens() returns (actions: seq<Action>, a: Action)
    ensures Good(Run(START, actions)) && StaleWrite(Run(START, actions), a)
    ensures forall password :: Unlock(Step(Run(START, actions), a).s, 1, password).1 == WrongPassword
  {
    var a1 := SealOp(1, "password1", "state", 10, 11, 0);
    var a2 := ReadOp(2);
    var a3 := ChangeOp(1, "password1", "password2", 20, 21, 0);
    actions := [a1, a2, a3];
    a := WriteOp(2, "newer state", 22, 0);
    var k1, k2 := Derived("password1", 10, PBKDF2_ITERATIONS), Derived("password2", 20, PBKDF2_ITERATIONS);
    var w1 := Step(START, a1);
    assert w1.s.session == Some(k1) && w1.s.announced == 1 && w1.s.realms == map[1 := Realm(Some(k1), 0)];
    var w2 := Step(w1, a2);
    assert w2.s.realms == map[1 := Realm(Some(k1), 0), 2 := Realm(Some(k1), 1)];
    var w3 := Step(w2, a3);
    assert w3.s.session == Some(k2) && LoadedKey(w3.s, 2) == Some(k1) && w3.password == "password2";
    StepKeepsGood(START, a1);
    StepKeepsGood(w1, a2);
    StepKeepsGood(w2, a3);
    RunThree(a1, a2, a3);
    hide Step, Run, Good;
    forall password
      ensures Unlock(Step(w3, a).s, 1, password).1 == WrongPassword
    {
      StaleWriteLocksOut(w3, a, 1, password);
    }
  }
}
