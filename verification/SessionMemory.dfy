/** The Turnkey session protocol of `SessionManager.ts`.

    Any number of extension documents ("realms") share one IndexedDB key pair and
    one snapshot in session storage.  A realm's own fields change only in the
    synchronous stretches between two awaits; those stretches are the functions
    of this module, which the class `SessionManager` carries out on its fields.
    Module `SessionProtocol` interleaves them. */
module SessionMemory {
  import opened Options

  type Key = nat
  type AccountId = string
  type CallId = nat

  const MIN_SESSION_TTL_SECONDS := 60
  const MAX_SESSION_TTL_SECONDS := 3600
  const SESSION_EXPIRY_SLACK_MS := 30_000

  datatype Snapshot = Snapshot(accountId: AccountId, expiresAt: int, publicKey: Key)

  /** The fields of one realm's manager.  A stamper is the public key it holds. */
  datatype Memory = Memory(
    stamper: Option<Key>,
    currentAccountId: Option<AccountId>,
    expiresAt: int,
    pendingOpen: Option<CallId>,
    pendingEnsure: Option<CallId>)

  const EMPTY := Memory(None, None, 0, None, None)

  /** Where an `open` call stands.  A name ending in -ing waits for an effect. */
  datatype OpenPhase =
    | RemovingSnapshot
    | ClearingKey
    | KeyCleared
    | Initialising
    | Resetting
    | Registering(key: Key)
    | Registered(key: Key)
    | Rejecting(key: Key)
    | Rejected
    | Writing(key: Key, expiresAt: int)
    | Written(key: Key)
    | Opened(key: Key)
    | OpenFailed
    | OpenJoined(owner: CallId)

  datatype EnsurePhase =
    | Reading
    | Read(found: Option<Snapshot>)
    | Adopting(snapshot: Snapshot)
    | Adopted(snapshot: Snapshot, onDisk: Option<Key>)
    | Discarding
    | Discarded
    | Ensured(result: Option<Key>)
    | EnsureJoined(owner: CallId)

  /** A JavaScript number: `clampTtl` tests for NaN and the infinities. */
  datatype Number = Finite(value: real) | NotFinite

  function ClampTtl(seconds: Number): (ttl: int)
    ensures MIN_SESSION_TTL_SECONDS <= ttl <= MAX_SESSION_TTL_SECONDS
    ensures seconds.Finite? && MIN_SESSION_TTL_SECONDS as real <= seconds.value <= MAX_SESSION_TTL_SECONDS as real
            ==> ttl as real <= seconds.value < ttl as real + 1.0
  {
    if seconds == NotFinite || seconds.value <= 0.0 then MIN_SESSION_TTL_SECONDS
    else if seconds.value < MIN_SESSION_TTL_SECONDS as real then MIN_SESSION_TTL_SECONDS
    else if seconds.value > MAX_SESSION_TTL_SECONDS as real then MAX_SESSION_TTL_SECONDS
    else seconds.value.Floor
  }

  predicate Live(expiresAt: int, now: int) {
    expiresAt - SESSION_EXPIRY_SLACK_MS > now
  }

  /** The empty account id is falsy and reads as "no account given". */
  predicate Given(accountId: Option<AccountId>) {
    accountId.Some? && accountId.value != ""
  }

  function ClientFor(m: Memory, accountId: Option<AccountId>, now: int): Option<Key> {
    if m.stamper == None || !Live(m.expiresAt, now) then None
    else if Given(accountId) && m.currentAccountId != accountId then None
    else m.stamper
  }

  function Hold(m: Memory, key: Key, accountId: AccountId, expiresAt: int): Memory {
    m.(stamper := Some(key), currentAccountId := Some(accountId), expiresAt := expiresAt)
  }

  function Forget(m: Memory): Memory {
    m.(stamper := None, currentAccountId := None, expiresAt := 0)
  }

  function SnapshotRemoved(m: Memory, removed: Key): Memory {
    if m.stamper == Some(removed) then Forget(m) else m
  }

  function BeginOpen(m: Memory, call: CallId, account: AccountId, now: int): (Memory, OpenPhase) {
    if m.pendingOpen.Some? then (m, OpenJoined(m.pendingOpen.value))
    else if m.stamper.Some? && m.currentAccountId == Some(account) && Live(m.expiresAt, now) then
      (m, Opened(m.stamper.value))
    else if Given(m.currentAccountId) && m.currentAccountId != Some(account) then (Forget(m), RemovingSnapshot)
    else (m.(pendingOpen := Some(call)), Initialising)
  }

  function EnterOpen(m: Memory, call: CallId): (Memory, OpenPhase) {
    (m.(pendingOpen := Some(call)), Initialising)
  }

  function AfterRegister(m: Memory, account: AccountId, ttl: int, key: Key, now: int): (Memory, OpenPhase) {
    (Hold(m, key, account, now + ttl * 1000), Writing(key, now + ttl * 1000))
  }

  function LeaveOpen(m: Memory, outcome: OpenPhase): (Memory, OpenPhase) {
    (m.(pendingOpen := None), outcome)
  }

  function BeginEnsure(m: Memory, call: CallId, account: AccountId, now: int): (Memory, EnsurePhase) {
    var inMemory := ClientFor(m, Some(account), now);
    if inMemory.Some? then (m, Ensured(inMemory))
    else if m.pendingEnsure.Some? then (m, EnsureJoined(m.pendingEnsure.value))
    else (m.(pendingEnsure := Some(call)), Reading)
  }

  function LeaveEnsure(m: Memory, result: Option<Key>): (Memory, EnsurePhase) {
    (m.(pendingEnsure := None), Ensured(result))
  }

  function AfterRead(m: Memory, account: AccountId, found: Option<Snapshot>, now: int): (Memory, EnsurePhase) {
    if found == None || found.value.accountId != account then LeaveEnsure(m, None)
    else if !Live(found.value.expiresAt, now) then (m, Discarding)
    else (m, Adopting(found.value))
  }

  function AfterAdopt(m: Memory, snapshot: Snapshot, onDisk: Option<Key>): (Memory, EnsurePhase) {
    if onDisk != Some(snapshot.publicKey) then (m, Discarding)
    else LeaveEnsure(Hold(m, snapshot.publicKey, snapshot.accountId, snapshot.expiresAt), onDisk)
  }

  /** One realm's manager.  Each method is one synchronous stretch of the source
      and does to the fields what the function of the same name says. */
  class SessionManager {
    var stamper: Option<Key>
    var currentAccountId: Option<AccountId>
    var expiresAt: int
    var pendingOpen: Option<CallId>
    var pendingEnsure: Option<CallId>

    ghost function State(): Memory
      reads this
    {
      Memory(stamper, currentAccountId, expiresAt, pendingOpen, pendingEnsure)
    }

    constructor ()
      ensures State() == EMPTY
    {
      stamper, currentAccountId, expiresAt, pendingOpen, pendingEnsure := None, None, 0, None, None;
    }

    method GetClient(accountId: Option<AccountId>, now: int) returns (client: Option<Key>)
      ensures client == ClientFor(State(), accountId, now)
    {
      if stamper == None {
        return None;
      }
      if expiresAt - SESSION_EXPIRY_SLACK_MS <= now {
        return None;
      }
      if Given(accountId) && currentAccountId != accountId {
        return None;
      }
      return stamper;
    }

    method Open(call: CallId, account: AccountId, now: int) returns (phase: OpenPhase)
      modifies this
      ensures (State(), phase) == BeginOpen(old(State()), call, account, now)
    {
      if pendingOpen.Some? {
        return OpenJoined(pendingOpen.value);
      }
      if stamper.Some? && currentAccountId == Some(account) && Live(expiresAt, now) {
        return Opened(stamper.value);
      }
      if Given(currentAccountId) && currentAccountId != Some(account) {
        Close();
        return RemovingSnapshot;
      }
      phase := DoOpen(call);
    }

    method DoOpen(call: CallId) returns (phase: OpenPhase)
      modifies this
      ensures (State(), phase) == EnterOpen(old(State()), call)
    {
      pendingOpen := Some(call);
      return Initialising;
    }

    method FinishRegister(account: AccountId, ttl: int, key: Key, now: int) returns (phase: OpenPhase)
      modifies this
      ensures (State(), phase) == AfterRegister(old(State()), account, ttl, key, now)
    {
      stamper := Some(key);
      currentAccountId := Some(account);
      expiresAt := now + ttl * 1000;
      return Writing(key, expiresAt);
    }

    method FinishOpen(outcome: OpenPhase) returns (phase: OpenPhase)
      modifies this
      ensures (State(), phase) == LeaveOpen(old(State()), outcome)
    {
      pendingOpen := None;
      return outcome;
    }

    method EnsureClient(call: CallId, account: AccountId, now: int) returns (phase: EnsurePhase)
      modifies this
      ensures (State(), phase) == BeginEnsure(old(State()), call, account, now)
    {
      var inMemory := GetClient(Some(account), now);
      if inMemory.Some? {
        return Ensured(inMemory);
      }
      if pendingEnsure.Some? {
        return EnsureJoined(pendingEnsure.value);
      }
      pendingEnsure := Some(call);
      return Reading;
    }

    method SnapshotRead(account: AccountId, found: Option<Snapshot>, now: int) returns (phase: EnsurePhase)
      modifies this
      ensures (State(), phase) == AfterRead(old(State()), account, found, now)
    {
      if found == None || found.value.accountId != account {
        pendingEnsure := None;
        return Ensured(None);
      }
      if found.value.expiresAt - SESSION_EXPIRY_SLACK_MS <= now {
        return Discarding;
      }
      return Adopting(found.value);
    }

    method KeyLoaded(snapshot: Snapshot, onDisk: Option<Key>) returns (phase: EnsurePhase)
      modifies this
      ensures (State(), phase) == AfterAdopt(old(State()), snapshot, onDisk)
    {
      if onDisk == None || onDisk.value != snapshot.publicKey {
        return Discarding;
      }
      stamper := onDisk;
      currentAccountId := Some(snapshot.accountId);
      expiresAt := snapshot.expiresAt;
      pendingEnsure := None;
      return Ensured(onDisk);
    }

    method FinishEnsure(result: Option<Key>) returns (phase: EnsurePhase)
      modifies this
      ensures (State(), phase) == LeaveEnsure(old(State()), result)
    {
      pendingEnsure := None;
      return Ensured(result);
    }

    method Close()
      modifies this
      ensures State() == Forget(old(State()))
    {
      stamper := None;
      currentAccountId := None;
      expiresAt := 0;
    }

    method OnSnapshotRemoved(removed: Key)
      modifies this
      ensures State() == SnapshotRemoved(old(State()), removed)
    {
      if stamper == None || removed != stamper.value {
        return;
      }
      stamper := None;
      currentAccountId := None;
      expiresAt := 0;
    }
  }
}
