/** The encrypted keystore of `keystore.ts`.  The derived key is cached by every
    realm (popup, side panel, service worker) and mirrored in session storage; a
    change of the mirrored copy is announced to the realms, which drop their cached
    key when the announcement arrives.  Key derivation and AES-GCM are ideal: a key
    is its password, salt and iteration count, and a ciphertext opens under exactly
    the key and IV it was made with. */
module KeystoreParts {
  import opened Options

  type RealmId = nat
  type Password = string
  type Plaintext = string

  const PBKDF2_ITERATIONS := 600_000

  datatype CryptoKey = Derived(password: Password, salt: nat, iterations: nat)

  datatype Ciphertext = Encrypted(key: CryptoKey, iv: nat, plaintext: Plaintext)

  datatype Blob = Blob(salt: nat, iv: nat, ciphertext: Ciphertext, iterations: nat, createdAt: int, updatedAt: int)

  function Decrypt(key: CryptoKey, blob: Blob): Option<Plaintext> {
    if blob.ciphertext.key == key && blob.ciphertext.iv == blob.iv then Some(blob.ciphertext.plaintext) else None
  }

  /** A realm's cached key, and how many of the announcements have reached it. */
  datatype Realm = Realm(cached: Option<CryptoKey>, heard: nat)

  /** `announced` counts the changes of the session copy so far. */
  datatype Storage = Storage(blob: Option<Blob>, legacy: Option<Plaintext>, session: Option<CryptoKey>,
                             announced: nat, realms: map<RealmId, Realm>)

  datatype Outcome<+T> = Ok(value: T) | WrongPassword | Locked | NotInitialized | PasswordTooShort

  function RealmOf(s: Storage, r: RealmId): Realm {
    if r in s.realms then s.realms[r] else Realm(None, s.announced)
  }

  /** Every announcement so far has reached the realm. */
  predicate UpToDate(s: Storage, r: RealmId) {
    RealmOf(s, r).heard >= s.announced
  }

  function Cache(s: Storage, r: RealmId, key: Option<CryptoKey>): Storage {
    s.(realms := s.realms[r := RealmOf(s, r).(cached := key)])
  }

  /** Session storage announces a change to every realm, the writer's included. */
  function SetSession(s: Storage, key: Option<CryptoKey>): Storage {
    if s.session == key then s
    else s.(session := key, announced := s.announced + 1)
  }

  /** `loadSessionKeyFromStorage`. */
  function LoadedKey(s: Storage, r: RealmId): Option<CryptoKey> {
    if RealmOf(s, r).cached.Some? then RealmOf(s, r).cached else s.session
  }

  function LoadKey(s: Storage, r: RealmId): Storage {
    if RealmOf(s, r).cached.Some? || s.session == None then s else Cache(s, r, s.session)
  }

  function SaveKey(s: Storage, r: RealmId, key: CryptoKey): Storage {
    SetSession(Cache(s, r, Some(key)), Some(key))
  }

  function ClearKey(s: Storage, r: RealmId): Storage {
    SetSession(Cache(s, r, None), None)
  }

  /** The arrival of one announcement. */
  function Announced(s: Storage, r: RealmId): Storage {
    if UpToDate(s, r) then s else s.(realms := s.realms[r := Realm(None, RealmOf(s, r).heard + 1)])
  }

  function Sealed(s: Storage, r: RealmId, password: Password, plaintext: Plaintext, salt: nat, iv: nat, now: int)
    : Storage
  {
    var key := Derived(password, salt, PBKDF2_ITERATIONS);
    var blob := Blob(salt, iv, Encrypted(key, iv, plaintext), PBKDF2_ITERATIONS, now, now);
    SaveKey(s.(blob := Some(blob)), r, key).(legacy := None)
  }

  function Seal(s: Storage, r: RealmId, password: Password, plaintext: Plaintext, salt: nat, iv: nat, now: int)
    : (Storage, Outcome<()>)
  {
    if |password| < 8 then (s, PasswordTooShort) else (Sealed(s, r, password, plaintext, salt, iv, now), Ok(()))
  }

  function Unlock(s: Storage, r: RealmId, password: Password): (Storage, Outcome<Plaintext>) {
    match s.blob
    case None => (s, NotInitialized)
    case Some(blob) =>
      var key := Derived(password, blob.salt, blob.iterations);
      match Decrypt(key, blob)
      case None => (s, WrongPassword)
      case Some(plaintext) => (SaveKey(s, r, key), Ok(plaintext))
  }

  function Read(s: Storage, r: RealmId): (Storage, Option<Plaintext>) {
    if s.blob == None then (s, None)
    else if LoadedKey(s, r) == None then (s, None)
    else
      match Decrypt(LoadedKey(s, r).value, s.blob.value)
      case None => (ClearKey(LoadKey(s, r), r), None)
      case Some(plaintext) => (LoadKey(s, r), Some(plaintext))
  }

  function Write(s: Storage, r: RealmId, plaintext: Plaintext, iv: nat, now: int): (Storage, Outcome<()>) {
    if s.blob == None then (s, NotInitialized)
    else if LoadedKey(s, r) == None then (s, Locked)
    else
      var ciphertext := Encrypted(LoadedKey(s, r).value, iv, plaintext);
      var blob := s.blob.value.(iv := iv, ciphertext := ciphertext, updatedAt := now);
      (LoadKey(s, r).(blob := Some(blob)), Ok(()))
  }

  function ChangePassword(s: Storage, r: RealmId, oldPassword: Password, newPassword: Password,
                          salt: nat, iv: nat, now: int)
    : (Storage, Outcome<()>)
  {
    if |newPassword| < 8 then (s, PasswordTooShort)
    else
      var (s1, result) := Unlock(s, r, oldPassword);
      match result
      case Ok(plaintext) => Seal(s1, r, newPassword, plaintext, salt, iv, now)
      case WrongPassword => (s1, WrongPassword)
      case Locked => (s1, Locked)
      case NotInitialized => (s1, NotInitialized)
      case PasswordTooShort => (s1, PasswordTooShort)
  }

  function Wipe(s: Storage, r: RealmId): Storage {
    ClearKey(s.(blob := None, legacy := None), r)
  }

  /** The stored items and the realms' cached keys.  Each method is one operation,
      run in realm `r`, and does what the function of its name says. */
  class Keystore {
    var blob: Option<Blob>
    var legacy: Option<Plaintext>
    var session: Option<CryptoKey>
    var announced: nat
    var realms: map<RealmId, Realm>

    ghost function State(): Storage
      reads this
    {
      Storage(blob, legacy, session, announced, realms)
    }

    constructor (legacy: Option<Plaintext>)
      ensures State() == Storage(None, legacy, None, 0, map[])
    {
      blob, this.legacy, session, announced, realms := None, legacy, None, 0, map[];
    }

    method PutSession(key: Option<CryptoKey>)
      modifies this
      ensures State() == SetSession(old(State()), key)
    {
      if session != key {
        session := key;
        announced := announced + 1;
      }
    }

    method PutCached(r: RealmId, key: Option<CryptoKey>)
      modifies this
      ensures State() == Cache(old(State()), r, key)
    {
      var heard := if r in realms then realms[r].heard else announced;
      realms := realms[r := Realm(key, heard)];
    }

    method LoadSessionKey(r: RealmId) returns (key: Option<CryptoKey>)
      modifies this
      ensures key == LoadedKey(old(State()), r) && State() == LoadKey(old(State()), r)
    {
      if r in realms && realms[r].cached.Some? {
        return realms[r].cached;
      }
      if session.Some? {
        PutCached(r, session);
      }
      return session;
    }

    method SealWith(r: RealmId, password: Password, plaintext: Plaintext, salt: nat, iv: nat, now: int)
      returns (result: Outcome<()>)
      modifies this
      ensures (State(), result) == Seal(old(State()), r, password, plaintext, salt, iv, now)
    {
      if |password| < 8 {
        return PasswordTooShort;
      }
      var key := Derived(password, salt, PBKDF2_ITERATIONS);
      blob := Some(Blob(salt, iv, Encrypted(key, iv, plaintext), PBKDF2_ITERATIONS, now, now));
      PutCached(r, Some(key));
      PutSession(Some(key));
      legacy := None;
      return Ok(());
    }

    method UnlockWith(r: RealmId, password: Password) returns (result: Outcome<Plaintext>)
      modifies this
      ensures (State(), result) == Unlock(old(State()), r, password)
    {
      if blob == None {
        return NotInitialized;
      }
      var key := Derived(password, blob.value.salt, blob.value.iterations);
      var plaintext := Decrypt(key, blob.value);
      if plaintext == None {
        return WrongPassword;
      }
      PutCached(r, Some(key));
      PutSession(Some(key));
      return Ok(plaintext.value);
    }

    method ReadState(r: RealmId) returns (plaintext: Option<Plaintext>)
      modifies this
      ensures (State(), plaintext) == Read(old(State()), r)
    {
      if blob == None {
        return None;
      }
      var key := LoadSessionKey(r);
      if key == None {
        return None;
      }
      plaintext := Decrypt(key.value, blob.value);
      if plaintext == None {
        PutCached(r, None);
        PutSession(None);
      }
    }

    method WriteState(r: RealmId, plaintext: Plaintext, iv: nat, now: int) returns (result: Outcome<()>)
      modifies this
      ensures (State(), result) == Write(old(State()), r, plaintext, iv, now)
    {
      if blob == None {
        return NotInitialized;
      }
      var key := LoadSessionKey(r);
      if key == None {
        return Locked;
      }
      blob := Some(blob.value.(iv := iv, ciphertext := Encrypted(key.value, iv, plaintext), updatedAt := now));
      return Ok(());
    }

    method ChangePasswordTo(r: RealmId, oldPassword: Password, newPassword: Password, salt: nat, iv: nat, now: int)
      returns (result: Outcome<()>)
      modifies this
      ensures (State(), result) == ChangePassword(old(State()), r, oldPassword, newPassword, salt, iv, now)
    {
      if |newPassword| < 8 {
        return PasswordTooShort;
      }
      var plaintext := UnlockWith(r, oldPassword);
      match plaintext
      case Ok(state) => result := SealWith(r, newPassword, state, salt, iv, now);
      case WrongPassword => result := WrongPassword;
      case Locked => result := Locked;
      case NotInitialized => result := NotInitialized;
      case PasswordTooShort => result := PasswordTooShort;
    }

    method Lock(r: RealmId)
      modifies this
      ensures State() == ClearKey(old(State()), r)
    {
      PutCached(r, None);
      PutSession(None);
    }

    method WipeAll(r: RealmId)
      modifies this
      ensures State() == Wipe(old(State()), r)
    {
      blob, legacy := None, None;
      PutCached(r, None);
      PutSession(None);
    }
  }
}
