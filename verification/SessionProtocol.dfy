/** Any number of realms: their synchronous stretches and the storage, IndexedDB and
    Turnkey effects these wait for, in every possible order. */
module SessionProtocol {
  import opened Options
  import opened SessionMemory

  type RealmId = nat

  datatype Call =
    | Open(realm: RealmId, account: AccountId, ttl: int, open: OpenPhase)
    | Ensure(realm: RealmId, account: AccountId, ensure: EnsurePhase)
    | CloseSnapshot(realm: RealmId)
    | CloseKey(realm: RealmId)
    | Closed(realm: RealmId)

  /** History: for whom a key's session was opened, when, and until when. */
  datatype Session = Session(accountId: AccountId, openedAt: int, expiresAt: int)

  datatype World = World(
    now: int,
    disk: Option<Key>,
    snapshot: Option<Snapshot>,
    removed: set<Key>,                 // keys whose snapshot removal was announced
    nextKey: Key,
    mintedBy: map<Key, CallId>,        // history: the open call that minted a key
    registry: map<Key, AccountId>,     // what Turnkey has registered
    sessions: map<Key, Session>,       // history
    realms: map<RealmId, Memory>,
    calls: map<CallId, Call>)

  const START := World(0, None, None, {}, 0, map[], map[], map[], map[], map[])

  /** What the environment decides about one effect. */
  datatype Outcome = Outcome(ok: bool, recorded: bool, generates: bool)

  datatype Action =
    | Tick(ms: nat)
    | StartOpen(id: CallId, realm: RealmId, account: AccountId, ttlSeconds: Number)
    | StartEnsure(id: CallId, realm: RealmId, account: AccountId)
    | StartClose(id: CallId, realm: RealmId)
    | Deliver(realm: RealmId, key: Key)   // a snapshot-removal event, late and in any order
    | Advance(id: CallId, outcome: Outcome)

  function MemoryOf(w: World, realm: RealmId): Memory {
    if realm in w.realms then w.realms[realm] else EMPTY
  }

  /** A call's next phase together with its realm's new fields. */
  function SetOpen(w: World, id: CallId, c: Call, step: (Memory, OpenPhase)): World
    requires c.Open?
  {
    w.(realms := w.realms[c.realm := step.0], calls := w.calls[id := c.(open := step.1)])
  }

  function SetEnsure(w: World, id: CallId, c: Call, step: (Memory, EnsurePhase)): World
    requires c.Ensure?
  {
    w.(realms := w.realms[c.realm := step.0], calls := w.calls[id := c.(ensure := step.1)])
  }

  function OpenAt(w: World, id: CallId, c: Call, phase: OpenPhase): World
    requires c.Open?
  {
    w.(calls := w.calls[id := c.(open := phase)])
  }

  function EnsureAt(w: World, id: CallId, c: Call, phase: EnsurePhase): World
    requires c.Ensure?
  {
    w.(calls := w.calls[id := c.(ensure := phase)])
  }

  function RemoveSnapshot(w: World): World {
    match w.snapshot
    case None => w
    case Some(s) => w.(snapshot := None, removed := w.removed + {s.publicKey})
  }

  /** `stamper.init()`: adopts the key on disk; with none there it may mint one. */
  function InitStamper(w: World, id: CallId, generates: bool): World {
    if w.disk == None && generates then Mint(w, id) else w
  }

  function Mint(w: World, id: CallId): World {
    w.(disk := Some(w.nextKey), nextKey := w.nextKey + 1, mintedBy := w.mintedBy[w.nextKey := id])
  }

  function AdvanceOpen(w: World, id: CallId, c: Call, o: Outcome): World
    requires c.Open?
  {
    var m := MemoryOf(w, c.realm);
    match c.open
    case RemovingSnapshot => OpenAt(RemoveSnapshot(w), id, c, ClearingKey)
    case ClearingKey => OpenAt(if o.ok then w.(disk := None) else w, id, c, KeyCleared)
    case KeyCleared => SetOpen(w, id, c, EnterOpen(m, id))
    case Initialising => OpenAt(InitStamper(w, id, o.generates), id, c, Resetting)
    case Resetting => OpenAt(Mint(w, id), id, c, Registering(w.nextKey))
    case Registering(key) =>
      if o.ok then OpenAt(w.(registry := w.registry[key := c.account]), id, c, Registered(key))
      else if o.recorded then OpenAt(w.(registry := w.registry[key := c.account]), id, c, Rejecting(key))
      else OpenAt(w, id, c, Rejecting(key))
    case Rejecting(_) => OpenAt(if o.ok then w.(disk := None) else w, id, c, Rejected)
    case Rejected => SetOpen(w, id, c, LeaveOpen(m, OpenFailed))
    case Registered(key) =>
      var w1 := w.(sessions := w.sessions[key := Session(c.account, w.now, w.now + c.ttl * 1000)]);
      SetOpen(w1, id, c, AfterRegister(m, c.account, c.ttl, key, w.now))
    case Writing(key, expiresAt) =>
      OpenAt(w.(snapshot := Some(Snapshot(c.account, expiresAt, key))), id, c, Written(key))
    case Written(key) => SetOpen(w, id, c, LeaveOpen(m, Opened(key)))
    case _ => w
  }

  function AdvanceEnsure(w: World, id: CallId, c: Call, o: Outcome): World
    requires c.Ensure?
  {
    var m := MemoryOf(w, c.realm);
    match c.ensure
    case Reading => EnsureAt(w, id, c, Read(w.snapshot))
    case Read(found) => SetEnsure(w, id, c, AfterRead(m, c.account, found, w.now))
    case Adopting(snapshot) =>
      var w1 := InitStamper(w, id, o.generates);
      EnsureAt(w1, id, c, Adopted(snapshot, w1.disk))
    case Adopted(snapshot, onDisk) => SetEnsure(w, id, c, AfterAdopt(m, snapshot, onDisk))
    case Discarding => EnsureAt(RemoveSnapshot(w), id, c, Discarded)
    case Discarded => SetEnsure(w, id, c, LeaveEnsure(m, None))
    case _ => w
  }

  /** One step of the whole system; an action that is not possible does nothing. */
  function Step(w: World, a: Action): World {
    match a
    case Tick(ms) => w.(now := w.now + ms)
    case StartOpen(id, realm, account, ttlSeconds) =>
      if id in w.calls then w
      else SetOpen(w, id, Open(realm, account, ClampTtl(ttlSeconds), Initialising),
                   BeginOpen(MemoryOf(w, realm), id, account, w.now))
    case StartEnsure(id, realm, account) =>
      if id in w.calls then w
      else SetEnsure(w, id, Ensure(realm, account, Reading), BeginEnsure(MemoryOf(w, realm), id, account, w.now))
    case StartClose(id, realm) =>
      if id in w.calls then w
      else w.(realms := w.realms[realm := Forget(MemoryOf(w, realm))], calls := w.calls[id := CloseSnapshot(realm)])
    case Deliver(realm, key) =>
      if key !in w.removed then w
      else w.(realms := w.realms[realm := SnapshotRemoved(MemoryOf(w, realm), key)])
    case Advance(id, o) =>
      if id !in w.calls then w
      else
        match w.calls[id]
        case Open(_, _, _, _) => AdvanceOpen(w, id, w.calls[id], o)
        case Ensure(_, _, _) => AdvanceEnsure(w, id, w.calls[id], o)
        case CloseSnapshot(realm) => RemoveSnapshot(w).(calls := w.calls[id := CloseKey(realm)])
        case CloseKey(realm) =>
          w.(disk := if o.ok then None else w.disk, calls := w.calls[id := Closed(realm)])
        case Closed(_) => w
  }

  function Run(w: World, actions: seq<Action>): World {
    if actions == [] then w else Step(Run(w, actions[..|actions| - 1]), actions[|actions| - 1])
  }

  // ----- The invariant

  /** `key` was opened for `accountId` until `expiresAt`. */
  ghost predicate Bound(w: World, key: Key, accountId: AccountId, expiresAt: int) {
    key in w.sessions && w.sessions[key].accountId == accountId && w.sessions[key].expiresAt == expiresAt
  }

  ghost predicate SnapshotOk(w: World, s: Snapshot) {
    Bound(w, s.publicKey, s.accountId, s.expiresAt)
  }

  ghost predicate MemoryOk(w: World, m: Memory) {
    && (m.stamper.Some? <==> m.currentAccountId.Some?)
    && (m.stamper.Some? ==> Bound(w, m.stamper.value, m.currentAccountId.value, m.expiresAt))
    && (m.pendingOpen.Some? ==> var p := m.pendingOpen.value;
                                p in w.calls && w.calls[p].Open? && !w.calls[p].open.OpenJoined?)
    && (m.pendingEnsure.Some? ==> var p := m.pendingEnsure.value;
                                  p in w.calls && w.calls[p].Ensure? && !w.calls[p].ensure.EnsureJoined?)
  }

  ghost predicate SessionOk(w: World, key: Key) {
    key in w.sessions ==>
      var s := w.sessions[key];
      && key in w.registry && w.registry[key] == s.accountId
      && s.openedAt <= w.now
      && MIN_SESSION_TTL_SECONDS * 1000 <= s.expiresAt - s.openedAt <= MAX_SESSION_TTL_SECONDS * 1000
  }

  ghost predicate OpenOk(w: World, id: CallId, c: Call)
    requires c.Open?
  {
    && MIN_SESSION_TTL_SECONDS <= c.ttl <= MAX_SESSION_TTL_SECONDS
    && match c.open
       case Registering(key) => key in w.mintedBy && w.mintedBy[key] == id && key !in w.registry && key !in w.sessions
       case Registered(key) =>
         && key in w.mintedBy && w.mintedBy[key] == id && key !in w.sessions
         && key in w.registry && w.registry[key] == c.account
       case Writing(key, expiresAt) => Bound(w, key, c.account, expiresAt)
       case Written(key) => key in w.sessions && w.sessions[key].accountId == c.account
       case Opened(key) => key in w.sessions && w.sessions[key].accountId == c.account
       case OpenJoined(owner) => owner in w.calls && w.calls[owner].Open? && !w.calls[owner].open.OpenJoined?
       case _ => true
  }

  ghost predicate EnsureOk(w: World, c: Call)
    requires c.Ensure?
  {
    match c.ensure
    case Read(found) => found.Some? ==> SnapshotOk(w, found.value)
    case Adopting(s) => SnapshotOk(w, s) && s.accountId == c.account
    case Adopted(s, _) => SnapshotOk(w, s) && s.accountId == c.account
    case Ensured(result) =>
      result.Some? ==>
        result.value in w.sessions && (c.account != "" ==> w.sessions[result.value].accountId == c.account)
    case EnsureJoined(owner) => owner in w.calls && w.calls[owner].Ensure? && !w.calls[owner].ensure.EnsureJoined?
    case _ => true
  }

  ghost predicate CallOk(w: World, id: CallId) {
    id in w.calls ==>
      && (w.calls[id].Open? ==> OpenOk(w, id, w.calls[id]))
      && (w.calls[id].Ensure? ==> EnsureOk(w, w.calls[id]))
  }

  ghost predicate Inv(w: World) {
    && (forall key :: key in w.mintedBy ==> key < w.nextKey)
    && (forall key :: key in w.registry ==> key in w.mintedBy)
    && (forall key :: key in w.sessions ==> SessionOk(w, key))
    && (w.snapshot.Some? ==> SnapshotOk(w, w.snapshot.value))
    && (forall realm :: realm in w.realms ==> MemoryOk(w, w.realms[realm]))
    && (forall id :: id in w.calls ==> CallOk(w, id))
  }

  /** A change by call `id` to what the realms share: history only grows, and only
      by keys that `id` minted. */
  ghost predicate SharedStep(w: World, v: World, id: CallId) {
    && v.calls == w.calls && v.realms == w.realms && v.now == w.now && w.nextKey <= v.nextKey
    && (forall key :: key in w.mintedBy ==> key in v.mintedBy && v.mintedBy[key] == w.mintedBy[key])
    && (forall key :: key in w.registry ==> key in v.registry && v.registry[key] == w.registry[key])
    && (forall key :: key in w.sessions ==> key in v.sessions && v.sessions[key] == w.sessions[key])
    && (forall key :: key in v.registry && key !in w.registry ==> key in w.mintedBy && w.mintedBy[key] == id)
    && (forall key :: key in v.sessions && key !in w.sessions ==> key in w.mintedBy && w.mintedBy[key] == id)
    && (forall key :: key in v.mintedBy ==> key < v.nextKey)
    && (forall key :: key in v.registry ==> key in v.mintedBy)
    && (forall key :: key in v.sessions ==> SessionOk(v, key))
    && (v.snapshot.Some? ==> SnapshotOk(v, v.snapshot.value))
  }

  /** An owner of a gate stays one. */
  ghost predicate KeepsRole(c: Call, d: Call) {
    && (c.Open? && !c.open.OpenJoined? ==> d.Open? && !d.open.OpenJoined?)
    && (c.Ensure? && !c.ensure.EnsureJoined? ==> d.Ensure? && !d.ensure.EnsureJoined?)
  }

  /** After the shared change `v`, call `id` moves to `c` and realm `realm` to `m`. */
  function Becomes(v: World, id: CallId, c: Call, realm: RealmId, m: Memory): World {
    v.(realms := v.realms[realm := m], calls := v.calls[id := c])
  }

  lemma MemoryCarries(w: World, v: World, id: CallId, c: Call, realm: RealmId, m': Memory, m: Memory)
    requires SharedStep(w, v, id) && MemoryOk(w, m)
    requires id in w.calls ==> KeepsRole(w.calls[id], c)
    ensures MemoryOk(Becomes(v, id, c, realm, m'), m)
  {}

  lemma CallCarries(w: World, v: World, id: CallId, c: Call, realm: RealmId, m': Memory, other: CallId)
    requires SharedStep(w, v, id) && other in w.calls && other != id && CallOk(w, other)
    requires id in w.calls ==> KeepsRole(w.calls[id], c)
    ensures CallOk(Becomes(v, id, c, realm, m'), other)
  {}

  /** What one step of call `id` has to establish. */
  lemma CallStep(w: World, v: World, id: CallId, c: Call, realm: RealmId, m: Memory)
    requires Inv(w) && SharedStep(w, v, id)
    requires id in w.calls ==> KeepsRole(w.calls[id], c)
    requires MemoryOk(Becomes(v, id, c, realm, m), m)
    requires CallOk(Becomes(v, id, c, realm, m), id)
    ensures Inv(Becomes(v, id, c, realm, m))
  {
    var w' := Becomes(v, id, c, realm, m);
    forall r | r in w'.realms
      ensures MemoryOk(w', w'.realms[r])
    {
      if r != realm {
        MemoryCarries(w, v, id, c, realm, m, w.realms[r]);
      }
    }
    forall other | other in w'.calls
      ensures CallOk(w', other)
    {
      if other != id {
        CallCarries(w, v, id, c, realm, m, other);
      }
    }
    hide MemoryOk, CallOk, KeepsRole;
    forall key | key in w'.sessions
      ensures SessionOk(w', key)
    {
      assert SessionOk(v, key);
    }
  }

  lemma MemoryOfOk(w: World, realm: RealmId)
    requires Inv(w)
    ensures MemoryOk(w, MemoryOf(w, realm))
  {
    if realm in w.realms {
      hide MemoryOk;
    }
  }

  lemma NoShare(w: World, id: CallId)
    requires Inv(w)
    ensures SharedStep(w, w, id)
  {}

  lemma RemoveShares(w: World, id: CallId)
    requires Inv(w)
    ensures SharedStep(w, RemoveSnapshot(w), id)
  {
    SessionsCarry(w, RemoveSnapshot(w));
  }

  lemma DiskShares(w: World, id: CallId, disk: Option<Key>)
    requires Inv(w)
    ensures SharedStep(w, w.(disk := disk), id)
  {
    SessionsCarry(w, w.(disk := disk));
  }

  lemma MintShares(w: World, id: CallId)
    requires Inv(w)
    ensures SharedStep(w, Mint(w, id), id)
  {
    SessionsCarry(w, Mint(w, id));
  }

  lemma InitShares(w: World, id: CallId, generates: bool)
    requires Inv(w)
    ensures SharedStep(w, InitStamper(w, id, generates), id)
  {
    MintShares(w, id);
    NoShare(w, id);
  }

  lemma SessionsCarry(w: World, v: World)
    requires Inv(w) && v.sessions == w.sessions && v.registry == w.registry && w.now <= v.now
    ensures forall key :: key in v.sessions ==> SessionOk(v, key)
  {
    forall key | key in v.sessions
      ensures SessionOk(v, key)
    {
      assert SessionOk(w, key);
    }
  }

  lemma RegisterShares(w: World, id: CallId, key: Key, account: AccountId)
    requires Inv(w) && key in w.mintedBy && w.mintedBy[key] == id && key !in w.registry && key !in w.sessions
    ensures SharedStep(w, w.(registry := w.registry[key := account]), id)
  {
    var v := w.(registry := w.registry[key := account]);
    forall k | k in v.sessions
      ensures SessionOk(v, k)
    {
      assert SessionOk(w, k);
    }
  }

  lemma SessionShares(w: World, id: CallId, key: Key, s: Session)
    requires Inv(w) && key in w.mintedBy && w.mintedBy[key] == id && key !in w.sessions
    requires key in w.registry && w.registry[key] == s.accountId && s.openedAt <= w.now
    requires MIN_SESSION_TTL_SECONDS * 1000 <= s.expiresAt - s.openedAt <= MAX_SESSION_TTL_SECONDS * 1000
    ensures SharedStep(w, w.(sessions := w.sessions[key := s]), id)
  {
    var v := w.(sessions := w.sessions[key := s]);
    forall k | k in v.sessions
      ensures SessionOk(v, k)
    {
      assert k != key ==> SessionOk(w, k);
    }
  }

  lemma SnapshotShares(w: World, id: CallId, s: Snapshot)
    requires Inv(w) && SnapshotOk(w, s)
    ensures SharedStep(w, w.(snapshot := Some(s)), id)
  {
    SessionsCarry(w, w.(snapshot := Some(s)));
  }

  // ----- Every step keeps the invariant

  /** Storing the fields a realm has already does not change what holds. */
  lemma SameFields(v: World, id: CallId, c: Call, realm: RealmId)
    requires Inv(Becomes(v, id, c, realm, MemoryOf(v, realm)))
    ensures Inv(v.(calls := v.calls[id := c]))
  {
    var w' := v.(calls := v.calls[id := c]);
    var b := Becomes(v, id, c, realm, MemoryOf(v, realm));
    hide SessionOk, SnapshotOk, MemoryOk, CallOk;
    SameFieldsParts(v, id, c, realm);
    forall r | r in w'.realms ensures MemoryOk(w', w'.realms[r]) {
      assert b.realms[r] == w'.realms[r];
      assert MemoryOk(b, b.realms[r]);
    }
    forall other | other in w'.calls ensures CallOk(w', other) {
      assert CallOk(b, other);
    }
    forall key | key in w'.sessions ensures SessionOk(w', key) {
      assert SessionOk(b, key);
    }
  }

  lemma SameFieldsParts(v: World, id: CallId, c: Call, realm: RealmId)
    ensures var w' := v.(calls := v.calls[id := c]);
            var b := Becomes(v, id, c, realm, MemoryOf(v, realm));
            && (forall m :: MemoryOk(b, m) ==> MemoryOk(w', m))
            && (forall other :: CallOk(b, other) ==> CallOk(w', other))
            && (forall key :: SessionOk(b, key) ==> SessionOk(w', key))
            && (forall s :: SnapshotOk(b, s) ==> SnapshotOk(w', s))
  {}

  /** A step of call `id` that leaves its realm's fields alone. */
  lemma CallOnlyStep(w: World, v: World, id: CallId, c: Call, realm: RealmId)
    requires Inv(w) && SharedStep(w, v, id)
    requires id in w.calls ==> KeepsRole(w.calls[id], c)
    requires CallOk(Becomes(v, id, c, realm, MemoryOf(v, realm)), id)
    ensures Inv(v.(calls := v.calls[id := c]))
  {
    var m := MemoryOf(v, realm);
    assert m == MemoryOf(w, realm);
    MemoryOfOk(w, realm);
    MemoryCarries(w, v, id, c, realm, m, m);
    CallStep(w, v, id, c, realm, m);
    SameFields(v, id, c, realm);
  }

  /** The effects `open` waits for: those that say nothing about a key ... */
  lemma OpenIdleKeepsInv(w: World, id: CallId, o: Outcome)
    requires Inv(w) && id in w.calls && w.calls[id].Open?
    requires w.calls[id].open.RemovingSnapshot? || w.calls[id].open.ClearingKey?
             || w.calls[id].open.Initialising? || w.calls[id].open.Rejecting?
    ensures Inv(AdvanceOpen(w, id, w.calls[id], o))
  {
    var c := w.calls[id];
    assert OpenOk(w, id, c) by { assert CallOk(w, id); }
    NoShare(w, id);
    DiskShares(w, id, None);
    RemoveShares(w, id);
    InitShares(w, id, o.generates);
    var after := AdvanceOpen(w, id, c, o);
    var v := after.(calls := w.calls);
    hide Inv, SharedStep, MemoryOk;
    CallOnlyStep(w, v, id, after.calls[id], c.realm);
    assert after == v.(calls := v.calls[id := after.calls[id]]);
  }

  /** ... minting a key, */
  lemma OpenMintKeepsInv(w: World, id: CallId, c: Call)
    requires Inv(w) && id in w.calls && c == w.calls[id] && c.Open? && c.open.Resetting?
    ensures Inv(OpenAt(Mint(w, id), id, c, Registering(w.nextKey)))
  {
    assert OpenOk(w, id, c) by { assert CallOk(w, id); }
    MintShares(w, id);
    assert w.nextKey !in w.mintedBy && w.nextKey !in w.registry;
    assert w.nextKey !in w.sessions by {
      assert w.nextKey in w.sessions ==> SessionOk(w, w.nextKey);
    }
    hide Inv, SharedStep, MemoryOk;
    CallOnlyStep(w, Mint(w, id), id, c.(open := Registering(w.nextKey)), c.realm);
  }

  /** ... registering it, or being told that failed, */
  lemma OpenRegisterKeepsInv(w: World, id: CallId, c: Call, key: Key, accepted: bool)
    requires Inv(w) && id in w.calls && c == w.calls[id] && c.Open? && c.open == Registering(key)
    ensures Inv(OpenAt(w.(registry := w.registry[key := c.account]), id, c,
                       if accepted then Registered(key) else Rejecting(key)))
  {
    assert OpenOk(w, id, c) by { assert CallOk(w, id); }
    var v := w.(registry := w.registry[key := c.account]);
    RegisterShares(w, id, key, c.account);
    hide Inv, SharedStep, MemoryOk;
    CallOnlyStep(w, v, id, c.(open := if accepted then Registered(key) else Rejecting(key)), c.realm);
  }

  lemma OpenRefusedKeepsInv(w: World, id: CallId, c: Call, key: Key)
    requires Inv(w) && id in w.calls && c == w.calls[id] && c.Open? && c.open == Registering(key)
    ensures Inv(OpenAt(w, id, c, Rejecting(key)))
  {
    assert OpenOk(w, id, c) by { assert CallOk(w, id); }
    NoShare(w, id);
    hide Inv, SharedStep, MemoryOk;
    CallOnlyStep(w, w, id, c.(open := Rejecting(key)), c.realm);
  }

  /** ... and publishing the snapshot. */
  lemma OpenWriteKeepsInv(w: World, id: CallId, c: Call, key: Key, expiresAt: int)
    requires Inv(w) && id in w.calls && c == w.calls[id] && c.Open? && c.open == Writing(key, expiresAt)
    ensures Inv(OpenAt(w.(snapshot := Some(Snapshot(c.account, expiresAt, key))), id, c, Written(key)))
  {
    assert OpenOk(w, id, c) by { assert CallOk(w, id); }
    var s := Snapshot(c.account, expiresAt, key);
    SnapshotShares(w, id, s);
    hide Inv, SharedStep, MemoryOk;
    CallOnlyStep(w, w.(snapshot := Some(s)), id, c.(open := Written(key)), c.realm);
  }

  /** The stretches of `open` in its realm: entering and leaving the gate ... */
  lemma OpenGateKeepsInv(w: World, id: CallId, c: Call, step: (Memory, OpenPhase))
    requires Inv(w) && id in w.calls && c == w.calls[id] && c.Open? && !c.open.OpenJoined?
    requires (step == EnterOpen(MemoryOf(w, c.realm), id) && c.open.KeyCleared?)
             || (step == LeaveOpen(MemoryOf(w, c.realm), OpenFailed) && c.open.Rejected?)
             || (c.open.Written? && step == LeaveOpen(MemoryOf(w, c.realm), Opened(c.open.key)))
    ensures Inv(SetOpen(w, id, c, step))
  {
    assert OpenOk(w, id, c) by { assert CallOk(w, id); }
    var m := MemoryOf(w, c.realm);
    MemoryOfOk(w, c.realm);
    NoShare(w, id);
    hide Inv, SharedStep;
    MemoryCarries(w, w, id, c.(open := step.1), c.realm, step.0, m);
    CallStep(w, w, id, c.(open := step.1), c.realm, step.0);
  }

  /** ... and taking the registered key into the fields. */
  lemma OpenHoldKeepsInv(w: World, id: CallId, c: Call, key: Key)
    requires Inv(w) && id in w.calls && c == w.calls[id] && c.Open? && c.open == Registered(key)
    ensures var s := Session(c.account, w.now, w.now + c.ttl * 1000);
            Inv(SetOpen(w.(sessions := w.sessions[key := s]), id, c,
                        AfterRegister(MemoryOf(w, c.realm), c.account, c.ttl, key, w.now)))
  {
    assert OpenOk(w, id, c) by { assert CallOk(w, id); }
    var m := MemoryOf(w, c.realm);
    MemoryOfOk(w, c.realm);
    var s := Session(c.account, w.now, w.now + c.ttl * 1000);
    var v := w.(sessions := w.sessions[key := s]);
    SessionShares(w, id, key, s);
    hide Inv, SharedStep;
    var step := AfterRegister(m, c.account, c.ttl, key, w.now);
    MemoryCarries(w, v, id, c.(open := step.1), c.realm, step.0, m);
    CallStep(w, v, id, c.(open := step.1), c.realm, step.0);
  }

  lemma OpenKeepsInv(w: World, id: CallId, o: Outcome)
    requires Inv(w) && id in w.calls && w.calls[id].Open?
    ensures Inv(AdvanceOpen(w, id, w.calls[id], o))
  {
    hide Inv;
    var c := w.calls[id];
    var m := MemoryOf(w, c.realm);
    match c.open
    case RemovingSnapshot => OpenIdleKeepsInv(w, id, o);
    case ClearingKey => OpenIdleKeepsInv(w, id, o);
    case Initialising => OpenIdleKeepsInv(w, id, o);
    case Rejecting(_) => OpenIdleKeepsInv(w, id, o);
    case Resetting => OpenMintKeepsInv(w, id, c);
    case Registering(key) =>
      if o.ok || o.recorded { OpenRegisterKeepsInv(w, id, c, key, o.ok); } else { OpenRefusedKeepsInv(w, id, c, key); }
    case Writing(key, expiresAt) => OpenWriteKeepsInv(w, id, c, key, expiresAt);
    case KeyCleared => OpenGateKeepsInv(w, id, c, EnterOpen(m, id));
    case Rejected => OpenGateKeepsInv(w, id, c, LeaveOpen(m, OpenFailed));
    case Registered(key) => OpenHoldKeepsInv(w, id, c, key);
    case Written(key) => OpenGateKeepsInv(w, id, c, LeaveOpen(m, Opened(key)));
    case _ =>
  }

  lemma EnsureEffectKeepsInv(w: World, id: CallId, o: Outcome)
    requires Inv(w) && id in w.calls && w.calls[id].Ensure?
    requires w.calls[id].ensure.Reading? || w.calls[id].ensure.Adopting? || w.calls[id].ensure.Discarding?
    ensures Inv(AdvanceEnsure(w, id, w.calls[id], o))
  {
    var c := w.calls[id];
    assert EnsureOk(w, c) by { assert CallOk(w, id); }
    NoShare(w, id);
    RemoveShares(w, id);
    InitShares(w, id, o.generates);
    var after := AdvanceEnsure(w, id, c, o);
    var v := after.(calls := w.calls);
    hide Inv, SharedStep, MemoryOk;
    CallOnlyStep(w, v, id, after.calls[id], c.realm);
    assert after == v.(calls := v.calls[id := after.calls[id]]);
  }

  lemma EnsureResumeKeepsInv(w: World, id: CallId, o: Outcome)
    requires Inv(w) && id in w.calls && w.calls[id].Ensure?
    requires w.calls[id].ensure.Read? || w.calls[id].ensure.Adopted? || w.calls[id].ensure.Discarded?
    ensures Inv(AdvanceEnsure(w, id, w.calls[id], o))
  {
    var c := w.calls[id];
    var m := MemoryOf(w, c.realm);
    assert EnsureOk(w, c) by { assert CallOk(w, id); }
    MemoryOfOk(w, c.realm);
    NoShare(w, id);
    var step := match c.ensure
      case Read(found) => AfterRead(m, c.account, found, w.now)
      case Adopted(snapshot, onDisk) => AfterAdopt(m, snapshot, onDisk)
      case _ => LeaveEnsure(m, None);
    hide Inv, SharedStep;
    MemoryCarries(w, w, id, c.(ensure := step.1), c.realm, step.0, m);
    CallStep(w, w, id, c.(ensure := step.1), c.realm, step.0);
  }

  lemma EnsureKeepsInv(w: World, id: CallId, o: Outcome)
    requires Inv(w) && id in w.calls && w.calls[id].Ensure?
    ensures Inv(AdvanceEnsure(w, id, w.calls[id], o))
  {
    hide Inv;
    match w.calls[id].ensure
    case Reading => EnsureEffectKeepsInv(w, id, o);
    case Adopting(_) => EnsureEffectKeepsInv(w, id, o);
    case Discarding => EnsureEffectKeepsInv(w, id, o);
    case Read(_) => EnsureResumeKeepsInv(w, id, o);
    case Adopted(_, _) => EnsureResumeKeepsInv(w, id, o);
    case Discarded => EnsureResumeKeepsInv(w, id, o);
    case _ =>
  }

  /** Starting a call. */
  lemma StartKeepsInv(w: World, id: CallId, c: Call, realm: RealmId, m: Memory)
    requires Inv(w) && id !in w.calls
    requires MemoryOk(Becomes(w, id, c, realm, MemoryOf(w, realm)), MemoryOf(w, realm))
             ==> MemoryOk(Becomes(w, id, c, realm, m), m) && CallOk(Becomes(w, id, c, realm, m), id)
    ensures Inv(Becomes(w, id, c, realm, m))
  {
    hide Inv, SharedStep, MemoryOk, CallOk;
    NoShare(w, id);
    MemoryOfOk(w, realm);
    MemoryCarries(w, w, id, c, realm, MemoryOf(w, realm), MemoryOf(w, realm));
    CallStep(w, w, id, c, realm, m);
  }

  lemma CloseKeepsInv(w: World, id: CallId, o: Outcome)
    requires Inv(w) && id in w.calls && (w.calls[id].CloseSnapshot? || w.calls[id].CloseKey?)
    ensures Inv(Step(w, Advance(id, o)))
  {
    var c := w.calls[id];
    NoShare(w, id);
    RemoveShares(w, id);
    DiskShares(w, id, None);
    var w' := Step(w, Advance(id, o));
    hide Inv, SharedStep, MemoryOk;
    CallOnlyStep(w, w'.(calls := w.calls), id, w'.calls[id], c.realm);
    assert w'.(calls := w.calls).(calls := w.calls[id := w'.calls[id]]) == w';
  }

  lemma TickKeepsInv(w: World, ms: nat)
    requires Inv(w)
    ensures Inv(Step(w, Tick(ms)))
  {
    var w' := Step(w, Tick(ms));
    SessionsCarry(w, w');
    forall id | id in w.calls ensures CallOk(w', id) { assert CallOk(w, id); }
    forall r | r in w.realms ensures MemoryOk(w', w.realms[r]) { assert MemoryOk(w, w.realms[r]); }
  }

  lemma DeliverKeepsInv(w: World, realm: RealmId, key: Key)
    requires Inv(w)
    ensures Inv(Step(w, Deliver(realm, key)))
  {
    var w' := Step(w, Deliver(realm, key));
    MemoryOfOk(w, realm);
    SessionsCarry(w, w');
    forall id | id in w.calls ensures CallOk(w', id) { assert CallOk(w, id); }
    forall r | r in w'.realms ensures MemoryOk(w', w'.realms[r]) {
      assert r in w.realms ==> MemoryOk(w, w.realms[r]);
    }
  }

  lemma StepKeepsInv(w: World, a: Action)
    requires Inv(w)
    ensures Inv(Step(w, a))
  {
    hide Inv;
    match a
    case Tick(ms) => TickKeepsInv(w, ms);
    case StartOpen(id, realm, account, ttlSeconds) =>
      if id !in w.calls {
        var step := BeginOpen(MemoryOf(w, realm), id, account, w.now);
        StartKeepsInv(w, id, Open(realm, account, ClampTtl(ttlSeconds), step.1), realm, step.0);
      }
    case StartEnsure(id, realm, account) =>
      if id !in w.calls {
        var step := BeginEnsure(MemoryOf(w, realm), id, account, w.now);
        StartKeepsInv(w, id, Ensure(realm, account, step.1), realm, step.0);
      }
    case StartClose(id, realm) =>
      if id !in w.calls {
        StartKeepsInv(w, id, CloseSnapshot(realm), realm, Forget(MemoryOf(w, realm)));
      }
    case Deliver(realm, key) => DeliverKeepsInv(w, realm, key);
    case Advance(id, o) =>
      if id in w.calls {
        match w.calls[id]
        case Open(_, _, _, _) => OpenKeepsInv(w, id, o);
        case Ensure(_, _, _) => EnsureKeepsInv(w, id, o);
        case CloseSnapshot(_) => CloseKeepsInv(w, id, o);
        case CloseKey(_) => CloseKeepsInv(w, id, o);
        case Closed(_) =>
      }
  }

  /** Every reachable state, for any number of realms and calls. */
  lemma {:induction false} RunKeepsInv(w: World, actions: seq<Action>)
    requires Inv(w)
    ensures Inv(Run(w, actions))
  {
    hide Inv;
    if actions != [] {
      RunKeepsInv(w, actions[..|actions| - 1]);
      StepKeepsInv(Run(w, actions[..|actions| - 1]), actions[|actions| - 1]);
    }
  }

  // ----- What callers get

  /** `w` is reached by some run of any number of realms. */
  ghost predicate Reachable(w: World) {
    exists actions :: Run(START, actions) == w
  }

  lemma ReachableInv(w: World)
    requires Reachable(w)
    ensures Inv(w)
  {
    var actions :| Run(START, actions) == w;
    RunKeepsInv(START, actions);
  }

  /** Turnkey has `key` under `account`, and the session opened with it ends
      within the ceiling. */
  ghost predicate ServedTo(w: World, key: Key, account: AccountId) {
    && key in w.registry && w.registry[key] == account
    && key in w.sessions && w.sessions[key].openedAt <= w.now
    && w.sessions[key].expiresAt <= w.sessions[key].openedAt + MAX_SESSION_TTL_SECONDS * 1000
  }

  /** Each realm's key and account, and the shared snapshot's, are a pair that was
      registered, whatever the other realms have done to the key on disk since. */
  lemma HeldPairsAreRegistered(w: World, realm: RealmId)
    requires Reachable(w)
    ensures var m := MemoryOf(w, realm);
            m.stamper.Some? ==> m.currentAccountId.Some? && ServedTo(w, m.stamper.value, m.currentAccountId.value)
    ensures w.snapshot.Some? ==> ServedTo(w, w.snapshot.value.publicKey, w.snapshot.value.accountId)
  {
    ReachableInv(w);
    MemoryOfOk(w, realm);
    forall key | key in w.sessions
      ensures SessionOk(w, key)
    {}
  }

  /** `getClient(account)` yields a key of another account exactly when the id
      given is the empty string, which reads as "any account", and the realm
      serves another one; and no key is served beyond its time. */
  lemma GetClientServes(w: World, realm: RealmId, account: AccountId, key: Key)
    requires Reachable(w)
    requires ClientFor(MemoryOf(w, realm), Some(account), w.now) == Some(key)
    ensures key in w.registry
    ensures w.registry[key] != account <==> account == "" && MemoryOf(w, realm).currentAccountId != Some("")
    ensures ServedTo(w, key, w.registry[key])
    ensures w.now < w.sessions[key].openedAt + MAX_SESSION_TTL_SECONDS * 1000 - SESSION_EXPIRY_SLACK_MS
  {
    ReachableInv(w);
    MemoryOfOk(w, realm);
    assert SessionOk(w, key);
  }

  /** The key a finished call returned, a joiner's being that of the call it joined. */
  function ResultOf(w: World, id: CallId): Option<Key>
    requires id in w.calls
  {
    match w.calls[id]
    case Open(_, _, _, Opened(key)) => Some(key)
    case Open(_, _, _, OpenJoined(owner)) =>
      if owner in w.calls && w.calls[owner].Open? && w.calls[owner].open.Opened? then Some(w.calls[owner].open.key)
      else None
    case Ensure(_, _, Ensured(result)) => result
    case Ensure(_, _, EnsureJoined(owner)) =>
      if owner in w.calls && w.calls[owner].Ensure? && w.calls[owner].ensure.Ensured?
      then w.calls[owner].ensure.result else None
    case _ => None
  }

  /** The call whose account decides the answer. */
  function Owner(w: World, id: CallId): CallId
    requires id in w.calls
  {
    match w.calls[id]
    case Open(_, _, _, OpenJoined(owner)) => owner
    case Ensure(_, _, EnsureJoined(owner)) => owner
    case _ => id
  }

  /** What `open(account)` returns belongs to the account of the call it joined:
      it is the caller's own account if and only if the two asked for the same. */
  lemma OpenServes(w: World, id: CallId, key: Key)
    requires Reachable(w) && id in w.calls && w.calls[id].Open? && ResultOf(w, id) == Some(key)
    ensures Owner(w, id) in w.calls && w.calls[Owner(w, id)].Open?
    ensures ServedTo(w, key, w.calls[Owner(w, id)].account)
    ensures w.registry[key] == w.calls[id].account <==> w.calls[Owner(w, id)].account == w.calls[id].account
  {
    ReachableInv(w);
    assert CallOk(w, id);
    assert CallOk(w, Owner(w, id));
    assert SessionOk(w, key);
  }

  /** The same for `ensureClient(account)` with a non-empty account id. */
  lemma EnsureServes(w: World, id: CallId, key: Key)
    requires Reachable(w) && id in w.calls && w.calls[id].Ensure? && ResultOf(w, id) == Some(key)
    ensures Owner(w, id) in w.calls && w.calls[Owner(w, id)].Ensure?
    ensures key in w.registry && ServedTo(w, key, w.registry[key])
    ensures var asked := w.calls[Owner(w, id)].account;
            asked != "" ==> w.registry[key] == asked
                            && (w.registry[key] == w.calls[id].account <==> asked == w.calls[id].account)
  {
    ReachableInv(w);
    assert CallOk(w, id);
    assert CallOk(w, Owner(w, id));
    assert SessionOk(w, key);
  }
}
