/** Runs of the session protocol: what an undisturbed session gives, when a `close()` is
    final, and the runs that show what is not promised. */
module SessionRuns {
  import opened Options
  import opened SessionMemory
  import opened SessionProtocol

  // ----- Continuations

  /** The action starts an `open` or an `ensureClient` in the realm to be kept quiet. */
  predicate StartsIn(a: Action, quiet: Option<RealmId>) {
    (a.StartOpen? || a.StartEnsure?) && quiet == Some(a.realm)
  }

  ghost predicate Avoids(actions: seq<Action>, quiet: Option<RealmId>) {
    forall i :: 0 <= i < |actions| ==> !StartsIn(actions[i], quiet)
  }

  /** `v` can come after `w`, with no new call in realm `quiet`. */
  ghost predicate Leads(w: World, quiet: Option<RealmId>, v: World) {
    exists actions :: Avoids(actions, quiet) && Run(w, actions) == v
  }

  lemma LeadsNowhere(w: World, quiet: Option<RealmId>)
    ensures Leads(w, quiet, w)
  {
    assert Avoids([], quiet) && Run(w, []) == w;
  }

  lemma LeadsStep(w: World, quiet: Option<RealmId>, v: World, a: Action)
    requires Leads(w, quiet, v) && !StartsIn(a, quiet)
    ensures Leads(w, quiet, Step(v, a))
  {
    var actions :| Avoids(actions, quiet) && Run(w, actions) == v;
    var more := actions + [a];
    assert more[..|actions|] == actions;
    hide Step;
    assert Avoids(more, quiet) && Run(w, more) == Step(v, a);
  }

  lemma {:induction false} RunThenRun(w: World, before: seq<Action>, after: seq<Action>)
    ensures Run(w, before + after) == Run(Run(w, before), after)
  {
    hide Step;
    var all := before + after;
    if after == [] {
      assert all == before;
    } else {
      assert all[..|all| - 1] == before + after[..|after| - 1];
      RunThenRun(w, before, after[..|after| - 1]);
    }
  }

  lemma LeadsStaysReachable(w: World, quiet: Option<RealmId>, v: World)
    requires Reachable(w) && Leads(w, quiet, v)
    ensures Reachable(v)
  {
    var before :| Run(START, before) == w;
    var after :| Avoids(after, quiet) && Run(w, after) == v;
    RunThenRun(START, before, after);
  }

  /** What may be done next, where that depends on the state. */
  type Rule = (World, Action) -> bool

  ghost predicate Obeys(w: World, rule: Rule, actions: seq<Action>) {
    forall i :: 0 <= i < |actions| ==> rule(Run(w, actions[..i]), actions[i])
  }

  ghost predicate LeadsUnder(w: World, rule: Rule, v: World) {
    exists actions :: Obeys(w, rule, actions) && Run(w, actions) == v
  }

  lemma ObeysLonger(w: World, rule: Rule, before: seq<Action>, last: Action)
    ensures Obeys(w, rule, before + [last]) <==> Obeys(w, rule, before) && rule(Run(w, before), last)
    ensures Run(w, before + [last]) == Step(Run(w, before), last)
  {
    var all := before + [last];
    assert all[..|before|] == before;
    assert forall i :: 0 <= i < |before| ==> all[..i] == before[..i] && all[i] == before[i];
    hide Step;
    assert all[|before|] == last;
  }

  lemma LeadsUnderNowhere(w: World, rule: Rule)
    ensures LeadsUnder(w, rule, w)
  {
    assert Obeys(w, rule, []) && Run(w, []) == w;
  }

  lemma LeadsUnderStep(w: World, rule: Rule, v: World, a: Action)
    requires LeadsUnder(w, rule, v) && rule(v, a)
    ensures LeadsUnder(w, rule, Step(v, a))
  {
    var actions :| Obeys(w, rule, actions) && Run(w, actions) == v;
    ObeysLonger(w, rule, actions, a);
  }

  lemma StartIsReachable()
    ensures Reachable(START)
  {
    assert Run(START, []) == START;
  }

  const FINE := Outcome(true, true, false)

  // ----- What an undisturbed session gives

  /** A realm that holds no session and opens none. */
  ghost predicate Idle(m: Memory) {
    m.stamper == None && m.currentAccountId == None && m.pendingOpen == None && m.pendingEnsure == None
  }

  /** One await of an `open` is answered. */
  lemma OpenAdvances(s0: World, q: Option<RealmId>, w: World, id: CallId) returns (w': World)
    requires Leads(s0, q, w) && id in w.calls && w.calls[id].Open?
    ensures Leads(s0, q, w') && w' == AdvanceOpen(w, id, w.calls[id], FINE)
  {
    LeadsStep(s0, q, w, Advance(id, FINE));
    w' := Step(w, Advance(id, FINE));
  }

  lemma OpenStarts(s0: World, q: Option<RealmId>, w: World, id: CallId, realm: RealmId,
                   account: AccountId, ttlSeconds: Number)
    returns (w': World)
    requires Leads(s0, q, w) && id !in w.calls && Idle(MemoryOf(w, realm)) && q != Some(realm)
    ensures Leads(s0, q, w')
    ensures w' == w.(realms := w.realms[realm := MemoryOf(w, realm).(pendingOpen := Some(id))],
                     calls := w.calls[id := Open(realm, account, ClampTtl(ttlSeconds), Initialising)])
  {
    hide Leads, Run, AdvanceOpen, AdvanceEnsure, ClampTtl;
    LeadsStep(s0, q, w, StartOpen(id, realm, account, ttlSeconds));
    w' := Step(w, StartOpen(id, realm, account, ttlSeconds));
  }

  lemma OpenMints(s0: World, q: Option<RealmId>, w: World, id: CallId, c: Call) returns (w': World)
    requires Leads(s0, q, w) && id in w.calls && w.calls[id] == c && c.Open? && c.open == Initialising
    ensures Leads(s0, q, w')
    ensures w' == w.(disk := Some(w.nextKey), nextKey := w.nextKey + 1, mintedBy := w.mintedBy[w.nextKey := id],
                     registry := w.registry[w.nextKey := c.account],
                     calls := w.calls[id := c.(open := Registered(w.nextKey))])
  {
    hide Leads, Run, Step;
    var w1 := OpenAdvances(s0, q, w, id);
    var w2 := OpenAdvances(s0, q, w1, id);
    w' := OpenAdvances(s0, q, w2, id);
    assert w'.calls == w.calls[id := c.(open := Registered(w.nextKey))];
  }

  lemma OpenRegisters(s0: World, q: Option<RealmId>, w: World, id: CallId, realm: RealmId,
                      account: AccountId, ttlSeconds: Number)
    returns (w': World)
    requires Leads(s0, q, w) && id !in w.calls && Idle(MemoryOf(w, realm)) && q != Some(realm)
    ensures Leads(s0, q, w')
    ensures w' == w.(disk := Some(w.nextKey), nextKey := w.nextKey + 1, mintedBy := w.mintedBy[w.nextKey := id],
                     registry := w.registry[w.nextKey := account],
                     realms := w.realms[realm := MemoryOf(w, realm).(pendingOpen := Some(id))],
                     calls := w.calls[id := Open(realm, account, ClampTtl(ttlSeconds), Registered(w.nextKey))])
  {
    hide Leads, Idle, ClampTtl;
    var w1 := OpenStarts(s0, q, w, id, realm, account, ttlSeconds);
    w' := OpenMints(s0, q, w1, id, w1.calls[id]);
    assert w'.calls == w.calls[id := Open(realm, account, ClampTtl(ttlSeconds), Registered(w.nextKey))];
  }

  lemma OpenPublishes(s0: World, q: Option<RealmId>, w: World, id: CallId, c: Call, key: Key) returns (w': World)
    requires Leads(s0, q, w) && id in w.calls && w.calls[id] == c && c.Open? && c.open == Registered(key)
    ensures Leads(s0, q, w')
    ensures var expiresAt := w.now + c.ttl * 1000;
            w' == w.(snapshot := Some(Snapshot(c.account, expiresAt, key)),
                     sessions := w.sessions[key := Session(c.account, w.now, expiresAt)],
                     realms := w.realms[c.realm :=
                       Hold(MemoryOf(w, c.realm), key, c.account, expiresAt).(pendingOpen := None)],
                     calls := w.calls[id := c.(open := Opened(key))])
  {
    hide Leads, Run, Step;
    var w1 := OpenAdvances(s0, q, w, id);
    var w2 := OpenAdvances(s0, q, w1, id);
    w' := OpenAdvances(s0, q, w2, id);
    assert w'.calls == w.calls[id := c.(open := Opened(key))];
    var m := Hold(MemoryOf(w, c.realm), key, c.account, w.now + c.ttl * 1000);
    assert w'.realms == w.realms[c.realm := m.(pendingOpen := None)];
  }

  /** All awaits of an undisturbed `open`, answered well. */
  lemma OpenRuns(s0: World, q: Option<RealmId>, w: World, id: CallId, realm: RealmId,
                 account: AccountId, ttlSeconds: Number)
    returns (w': World)
    requires Leads(s0, q, w) && id !in w.calls && Idle(MemoryOf(w, realm)) && q != Some(realm)
    ensures Leads(s0, q, w')
    ensures var expiresAt := w.now + ClampTtl(ttlSeconds) * 1000;
            && w'.now == w.now && w'.disk == Some(w.nextKey) && w'.nextKey == w.nextKey + 1
            && w'.registry == w.registry[w.nextKey := account]
            && w'.snapshot == Some(Snapshot(account, expiresAt, w.nextKey))
            && w'.realms == w.realms[realm := MemoryOf(w', realm)]
            && MemoryOf(w', realm) == Hold(EMPTY, w.nextKey, account, expiresAt)
            && w'.calls == w.calls[id := Open(realm, account, ClampTtl(ttlSeconds), Opened(w.nextKey))]
  {
    hide Leads, ClampTtl;
    assert MemoryOf(w, realm).stamper == None && MemoryOf(w, realm).pendingOpen == None
           && MemoryOf(w, realm).pendingEnsure == None;
    var w1 := OpenRegisters(s0, q, w, id, realm, account, ttlSeconds);
    hide Idle;
    var c := w1.calls[id];
    w' := OpenPublishes(s0, q, w1, id, c, w.nextKey);
    assert w'.calls == w.calls[id := c.(open := Opened(w.nextKey))];
  }

  lemma HeldIsServed(m: Memory, key: Key, account: AccountId, now: int, ttl: int)
    requires ttl >= MIN_SESSION_TTL_SECONDS
    ensures ClientFor(Hold(m, key, account, now + ttl * 1000), Some(account), now) == Some(key)
  {}

  lemma NextKeyIsFree(w: World)
    requires Reachable(w)
    ensures w.nextKey !in w.registry
  {
    ReachableInv(w);
  }

  /** An `open` that nothing disturbs registers a key of its own for the account and
      serves it to its realm, ... */
  lemma UndisturbedOpenServes(w: World, id: CallId, realm: RealmId,
                              account: AccountId, ttlSeconds: Number)
    returns (w': World)
    requires Reachable(w) && id !in w.calls && Idle(MemoryOf(w, realm))
    ensures Reachable(w') && w'.now == w.now && w'.calls.Keys == w.calls.Keys + {id}
    ensures id in w'.calls && w'.calls[id].Open? && ResultOf(w', id) == Some(w.nextKey)
    ensures forall other :: other in w.calls ==> w'.calls[other] == w.calls[other]
    ensures w.nextKey !in w.registry && w'.registry == w.registry[w.nextKey := account]
    ensures w'.disk == Some(w.nextKey) && w'.nextKey == w.nextKey + 1
    ensures w'.snapshot == Some(Snapshot(account, w.now + ClampTtl(ttlSeconds) * 1000, w.nextKey))
    ensures ClientFor(MemoryOf(w', realm), Some(account), w.now) == Some(w.nextKey)
    ensures forall other :: other != realm ==> MemoryOf(w', other) == MemoryOf(w, other)
  {
    NextKeyIsFree(w);
    LeadsNowhere(w, None);
    hide Reachable, Leads, Idle, ClampTtl, Hold, ClientFor, Live;
    w' := OpenRuns(w, None, w, id, realm, account, ttlSeconds);
    LeadsStaysReachable(w, None, w');
    HeldIsServed(EMPTY, w.nextKey, account, w.now, ClampTtl(ttlSeconds));
  }

  /** A call `ensureClient` that finds the session published. */
  lemma EnsureRuns(s0: World, q: Option<RealmId>, w: World, id: CallId, realm: RealmId, s: Snapshot) returns (w': World)
    requires Leads(s0, q, w) && id in w.calls && w.calls[id] == Ensure(realm, s.accountId, Reading)
    requires w.snapshot == Some(s) && w.disk == Some(s.publicKey) && Live(s.expiresAt, w.now)
    ensures Leads(s0, q, w') && w'.registry == w.registry
    ensures MemoryOf(w', realm).stamper == Some(s.publicKey)
    ensures w'.calls == w.calls[id := Ensure(realm, s.accountId, Ensured(Some(s.publicKey)))]
  {
    hide Leads, Run, AdvanceOpen;
    LeadsStep(s0, q, w, Advance(id, FINE));
    var w1 := Step(w, Advance(id, FINE));
    assert w1 == w.(calls := w.calls[id := Ensure(realm, s.accountId, Read(Some(s)))]);
    LeadsStep(s0, q, w1, Advance(id, FINE));
    var w2 := Step(w1, Advance(id, FINE));
    assert w2.calls == w.calls[id := Ensure(realm, s.accountId, Adopting(s))];
    assert w2.disk == w.disk && w2.registry == w.registry;
    LeadsStep(s0, q, w2, Advance(id, FINE));
    var w3 := Step(w2, Advance(id, FINE));
    assert w3.calls == w.calls[id := Ensure(realm, s.accountId, Adopted(s, w.disk))];
    LeadsStep(s0, q, w3, Advance(id, FINE));
    w' := Step(w3, Advance(id, FINE));
  }

  lemma ReachableStep(w: World, a: Action)
    requires Reachable(w)
    ensures Reachable(Step(w, a))
  {
    LeadsNowhere(w, None);
    LeadsStep(w, None, w, a);
    LeadsStaysReachable(w, None, Step(w, a));
  }

  /** ... and every other document of the extension then finds it: `ensureClient` in
      an idle realm returns the key that another realm opened. */
  lemma SessionIsShared(w: World, id: CallId, realm: RealmId, account: AccountId, ttlSeconds: Number,
                        ensureId: CallId, other: RealmId) returns (w': World)
    requires Reachable(w) && id !in w.calls && ensureId !in w.calls && id != ensureId && realm != other
    requires Idle(MemoryOf(w, realm)) && Idle(MemoryOf(w, other))
    ensures Reachable(w') && ensureId in w'.calls && w'.calls[ensureId].Ensure? && w'.calls[ensureId].account == account
    ensures ResultOf(w', ensureId) == Some(w.nextKey)
    ensures w.nextKey in w'.registry && w'.registry[w.nextKey] == account
  {
    var w1 := UndisturbedOpenServes(w, id, realm, account, ttlSeconds);
    var s := w1.snapshot.value;
    var w2 := Step(w1, StartEnsure(ensureId, other, account));
    assert w2 == w1.(realms := w1.realms[other := MemoryOf(w1, other).(pendingEnsure := Some(ensureId))],
                     calls := w1.calls[ensureId := Ensure(other, account, Reading)]);
    ReachableStep(w1, StartEnsure(ensureId, other, account));
    hide Reachable, Leads, Run, Step;
    LeadsNowhere(w2, None);
    w' := EnsureRuns(w2, None, w2, ensureId, other, s);
    LeadsStaysReachable(w2, None, w');
  }

  // ----- When a close is final

  /** Call `id` can still give `realm` a session: an `open` that has not yet held its key,
      or an `ensureClient` that has not yet read the snapshot, or has read one it can adopt. */
  predicate MayHold(w: World, realm: RealmId, id: CallId) {
    id in w.calls &&
    match w.calls[id]
    case Open(r, _, _, open) => r == realm && Unheld(open)
    case Ensure(r, account, ensure) =>
      r == realm &&
      (match ensure
       case Reading => true
       case Read(found) =>
         found.Some? && found.value.accountId == account && Live(found.value.expiresAt, w.now)
         && w.disk == Some(found.value.publicKey)
       case Adopting(s) => w.disk == Some(s.publicKey)
       case Adopted(s, onDisk) => onDisk == Some(s.publicKey)
       case _ => false)
    case _ => false
  }

  predicate Unheld(open: OpenPhase) {
    open.RemovingSnapshot? || open.ClearingKey? || open.KeyCleared? || open.Initialising? || open.Resetting?
    || open.Registering? || open.Registered?
  }

  /** The next step of the `open` is a synchronous stretch, not an effect. */
  predicate Resumes(open: OpenPhase) {
    open.KeyCleared? || open.Rejected? || open.Registered? || open.Written?
  }

  /** The realm serves nothing and no call of its can change that. */
  ghost predicate Shut(w: World, realm: RealmId) {
    MemoryOf(w, realm).stamper == None && forall id :: !MayHold(w, realm, id)
  }

  /** A key that has left the disk never comes back. */
  ghost predicate DiskForgets(w: World, v: World) {
    w.nextKey <= v.nextKey && w.now <= v.now
    && forall key :: key < w.nextKey && w.disk != Some(key) ==> v.disk != Some(key)
  }

  /** The effects on what the realms share leave calls and fields alone. */
  lemma EffectsKeep(w: World, id: CallId, generates: bool)
    ensures RemoveSnapshot(w).calls == Mint(w, id).calls == InitStamper(w, id, generates).calls == w.calls
    ensures RemoveSnapshot(w).realms == Mint(w, id).realms == InitStamper(w, id, generates).realms == w.realms
    ensures DiskForgets(w, RemoveSnapshot(w)) && DiskForgets(w, Mint(w, id))
    ensures DiskForgets(w, InitStamper(w, id, generates))
  {}

  /** `v` is `w` with an effect on what the realms share. */
  ghost predicate Shares(w: World, v: World) {
    v.calls == w.calls && v.realms == w.realms && DiskForgets(w, v)
  }

  /** Call `id` of `w`, which is `c`, has gone on: no other call moved, and no other
      realm's fields changed. */
  ghost predicate GoesOn(w: World, id: CallId, c: Call, v: World) {
    && DiskForgets(w, v)
    && id in v.calls && v.calls == w.calls[id := v.calls[id]]
    && v.calls[id].Open? == c.Open? && v.calls[id].Ensure? == c.Ensure? && v.calls[id].realm == c.realm
    && (v.realms == w.realms || (c.realm in v.realms && v.realms == w.realms[c.realm := v.realms[c.realm]]))
  }

  lemma OpenAtGoesOn(w: World, v: World, id: CallId, c: Call, next: OpenPhase)
    requires c.Open? && Shares(w, v)
    ensures GoesOn(w, id, c, OpenAt(v, id, c, next))
  {}

  lemma SetOpenGoesOn(w: World, v: World, id: CallId, c: Call, step: (Memory, OpenPhase))
    requires c.Open? && Shares(w, v)
    ensures GoesOn(w, id, c, SetOpen(v, id, c, step))
  {}

  lemma EnsureAtGoesOn(w: World, v: World, id: CallId, c: Call, next: EnsurePhase)
    requires c.Ensure? && Shares(w, v)
    ensures GoesOn(w, id, c, EnsureAt(v, id, c, next))
  {}

  lemma SetEnsureGoesOn(w: World, id: CallId, c: Call, step: (Memory, EnsurePhase))
    requires c.Ensure?
    ensures GoesOn(w, id, c, SetEnsure(w, id, c, step))
  {}

  lemma NothingGoesOn(w: World, id: CallId)
    requires id in w.calls
    ensures GoesOn(w, id, w.calls[id], w)
  {}

  lemma OpenGoesOn(w: World, id: CallId, c: Call, o: Outcome)
    requires c.Open? && id in w.calls && w.calls[id] == c
    ensures GoesOn(w, id, c, AdvanceOpen(w, id, c, o))
  {
    var m := MemoryOf(w, c.realm);
    EffectsKeep(w, id, o.generates);
    hide RemoveSnapshot, Mint, InitStamper, EnterOpen, LeaveOpen, AfterRegister, MemoryOf, OpenAt, SetOpen, GoesOn;
    match c.open
    case RemovingSnapshot => OpenAtGoesOn(w, RemoveSnapshot(w), id, c, ClearingKey);
    case ClearingKey => OpenAtGoesOn(w, if o.ok then w.(disk := None) else w, id, c, KeyCleared);
    case KeyCleared => SetOpenGoesOn(w, w, id, c, EnterOpen(m, id));
    case Initialising => OpenAtGoesOn(w, InitStamper(w, id, o.generates), id, c, Resetting);
    case Resetting => OpenAtGoesOn(w, Mint(w, id), id, c, Registering(w.nextKey));
    case Registering(key) =>
      var w1 := w.(registry := w.registry[key := c.account]);
      OpenAtGoesOn(w, w1, id, c, if o.ok then Registered(key) else Rejecting(key));
      OpenAtGoesOn(w, w, id, c, Rejecting(key));
    case Rejecting(_) => OpenAtGoesOn(w, if o.ok then w.(disk := None) else w, id, c, Rejected);
    case Rejected => SetOpenGoesOn(w, w, id, c, LeaveOpen(m, OpenFailed));
    case Registered(key) =>
      var w1 := w.(sessions := w.sessions[key := Session(c.account, w.now, w.now + c.ttl * 1000)]);
      SetOpenGoesOn(w, w1, id, c, AfterRegister(m, c.account, c.ttl, key, w.now));
    case Writing(key, expiresAt) =>
      OpenAtGoesOn(w, w.(snapshot := Some(Snapshot(c.account, expiresAt, key))), id, c, Written(key));
    case Written(key) => SetOpenGoesOn(w, w, id, c, LeaveOpen(m, Opened(key)));
    case _ => NothingGoesOn(w, id);
  }

  lemma EnsureGoesOn(w: World, id: CallId, c: Call, o: Outcome)
    requires c.Ensure? && id in w.calls && w.calls[id] == c
    ensures GoesOn(w, id, c, AdvanceEnsure(w, id, c, o))
  {
    var m := MemoryOf(w, c.realm);
    EffectsKeep(w, id, o.generates);
    hide RemoveSnapshot, Mint, InitStamper, AfterRead, AfterAdopt, LeaveEnsure, MemoryOf, EnsureAt, SetEnsure, GoesOn;
    match c.ensure
    case Reading => EnsureAtGoesOn(w, w, id, c, Read(w.snapshot));
    case Read(found) => SetEnsureGoesOn(w, id, c, AfterRead(m, c.account, found, w.now));
    case Adopting(snapshot) =>
      var w1 := InitStamper(w, id, o.generates);
      EnsureAtGoesOn(w, w1, id, c, Adopted(snapshot, w1.disk));
    case Adopted(snapshot, onDisk) => SetEnsureGoesOn(w, id, c, AfterAdopt(m, snapshot, onDisk));
    case Discarding => EnsureAtGoesOn(w, RemoveSnapshot(w), id, c, Discarded);
    case Discarded => SetEnsureGoesOn(w, id, c, LeaveEnsure(m, None));
    case _ => NothingGoesOn(w, id);
  }

  lemma CloseGoesOn(w: World, id: CallId, o: Outcome)
    requires id in w.calls && !w.calls[id].Open? && !w.calls[id].Ensure?
    ensures GoesOn(w, id, w.calls[id], Step(w, Advance(id, o)))
  {
    EffectsKeep(w, id, o.generates);
    hide RemoveSnapshot, AdvanceOpen, AdvanceEnsure, GoesOn;
    match w.calls[id]
    case CloseSnapshot(realm) => CloseAtGoesOn(w, RemoveSnapshot(w), id, w.calls[id], CloseKey(realm));
    case CloseKey(realm) =>
      CloseAtGoesOn(w, w.(disk := if o.ok then None else w.disk), id, w.calls[id], Closed(realm));
    case Closed(_) => NothingGoesOn(w, id);
  }

  lemma CloseAtGoesOn(w: World, v: World, id: CallId, c: Call, next: Call)
    requires Shares(w, v) && !c.Open? && !c.Ensure? && !next.Open? && !next.Ensure? && next.realm == c.realm
    ensures GoesOn(w, id, c, v.(calls := w.calls[id := next]))
  {}

  lemma AnsweredGoesOn(w: World, id: CallId, o: Outcome)
    requires id in w.calls
    ensures GoesOn(w, id, w.calls[id], Step(w, Advance(id, o)))
  {
    hide GoesOn, AdvanceOpen, AdvanceEnsure;
    if w.calls[id].Open? {
      OpenGoesOn(w, id, w.calls[id], o);
    } else if w.calls[id].Ensure? {
      EnsureGoesOn(w, id, w.calls[id], o);
    } else {
      CloseGoesOn(w, id, o);
    }
  }

  /** A step moves no call but the one it answers, and adds none but the one it starts. */
  lemma StepShape(w: World, a: Action)
    ensures DiskForgets(w, Step(w, a))
    ensures forall id :: id in w.calls && !(a.Advance? && a.id == id) ==>
              id in Step(w, a).calls && Step(w, a).calls[id] == w.calls[id]
    ensures forall id :: id in Step(w, a).calls && id !in w.calls ==>
              && (a.StartOpen? || a.StartEnsure? || a.StartClose?) && Step(w, a).calls[id].realm == a.realm
              && (a.StartClose? ==> Step(w, a).calls[id] == CloseSnapshot(a.realm))
  {
    if a.Advance? && a.id in w.calls {
      AnsweredGoesOn(w, a.id, a.outcome);
      hide Step;
    }
    hide AdvanceOpen, AdvanceEnsure, BeginOpen, BeginEnsure;
  }

  /** What is recorded of a session does not change. */
  lemma SessionsStay(w: World, a: Action)
    requires Inv(w)
    ensures forall key :: key in w.sessions ==>
            key in Step(w, a).sessions && Step(w, a).sessions[key] == w.sessions[key]
  {
    if a.Advance? && a.id in w.calls && w.calls[a.id].Open? && w.calls[a.id].open.Registered? {
      assert CallOk(w, a.id);
    }
    hide Inv, BeginOpen, BeginEnsure;
  }

  /** A snapshot that some call has read names a key minted before. */
  lemma ReadKeyIsOld(w: World, id: CallId)
    requires Inv(w) && id in w.calls && w.calls[id].Ensure?
    ensures match w.calls[id].ensure
            case Read(found) => found.Some? ==> found.value.publicKey < w.nextKey
            case Adopting(s) => s.publicKey < w.nextKey
            case Adopted(s, _) => s.publicKey < w.nextKey
            case _ => true
  {
    assert CallOk(w, id);
    match w.calls[id].ensure
    case Read(found) => if found.Some? { assert SessionOk(w, found.value.publicKey); }
    case Adopting(s) => assert SessionOk(w, s.publicKey);
    case Adopted(s, _) => assert SessionOk(w, s.publicKey);
    case _ =>
  }

  /** A call that has not moved on can do no more than before. */
  lemma CannotStays(w: World, v: World, realm: RealmId, id: CallId)
    requires Inv(w) && DiskForgets(w, v) && id in w.calls && id in v.calls && v.calls[id] == w.calls[id]
    requires !MayHold(w, realm, id)
    ensures !MayHold(v, realm, id)
  {
    if w.calls[id].Ensure? {
      ReadKeyIsOld(w, id);
    }
    hide Inv;
  }

  lemma HeldOpenHoldsNoMore(w: World, id: CallId, o: Outcome)
    requires id in w.calls && w.calls[id].Open? && !Unheld(w.calls[id].open)
    ensures var c := w.calls[id]; var v := AdvanceOpen(w, id, c, o);
            MemoryOf(v, c.realm).stamper == MemoryOf(w, c.realm).stamper
            && id in v.calls && v.calls[id].Open? && !Unheld(v.calls[id].open)
  {
    hide InitStamper, Mint, RemoveSnapshot, EnterOpen, AfterRegister, Hold;
    if w.calls[id].open.Rejected? || w.calls[id].open.Written? {
      hide OpenAt;
    } else {
      hide SetOpen, LeaveOpen;
    }
  }

  lemma OwnEnsureHoldsNothing(w: World, id: CallId, o: Outcome)
    requires Inv(w) && id in w.calls && w.calls[id].Ensure? && !MayHold(w, w.calls[id].realm, id)
    ensures var c := w.calls[id]; var v := AdvanceEnsure(w, id, c, o);
            MemoryOf(v, c.realm).stamper == MemoryOf(w, c.realm).stamper && !MayHold(v, c.realm, id)
  {
    ReadKeyIsOld(w, id);
    hide Inv;
  }

  lemma AdvanceHoldsNothing(w: World, realm: RealmId, id: CallId, o: Outcome)
    requires Inv(w) && !MayHold(w, realm, id) && id in w.calls
    ensures var v := Step(w, Advance(id, o));
            MemoryOf(v, realm).stamper == MemoryOf(w, realm).stamper && !MayHold(v, realm, id)
  {
    AnsweredGoesOn(w, id, o);
    if w.calls[id].realm == realm {
      if w.calls[id].Open? {
        HeldOpenHoldsNoMore(w, id, o);
      } else if w.calls[id].Ensure? {
        OwnEnsureHoldsNothing(w, id, o);
      } else {
        OwnCloseHoldsNothing(w, id, o);
      }
    }
    hide Inv, AdvanceOpen, AdvanceEnsure, DiskForgets, RemoveSnapshot;
  }

  lemma OwnCloseHoldsNothing(w: World, id: CallId, o: Outcome)
    requires id in w.calls && !w.calls[id].Open? && !w.calls[id].Ensure?
    ensures Step(w, Advance(id, o)).realms == w.realms
  {
    EffectsKeep(w, id, o.generates);
    hide RemoveSnapshot, AdvanceOpen, AdvanceEnsure;
  }

  /** The key the realm is left with when no call of its can hold one: its own, unless
      the step closes its session or tells it that the snapshot was removed. */
  function StamperAfter(w: World, realm: RealmId, a: Action): Option<Key> {
    var stamper := MemoryOf(w, realm).stamper;
    match a
    case StartClose(id, r) => if r == realm && id !in w.calls then None else stamper
    case Deliver(r, key) => if r == realm && key in w.removed && stamper == Some(key) then None else stamper
    case _ => stamper
  }

  /** Where no call can hold a key, none can after a step that starts none. */
  lemma NothingHeldAnew(w: World, realm: RealmId, a: Action)
    requires Inv(w) && (forall id :: !MayHold(w, realm, id)) && !StartsIn(a, Some(realm))
    ensures forall id :: !MayHold(Step(w, a), realm, id)
    ensures MemoryOf(Step(w, a), realm).stamper == StamperAfter(w, realm, a)
  {
    var v := Step(w, a);
    assert a.Advance? && a.id !in w.calls ==> v == w;
    hide Inv, Step, MayHold;
    StepShape(w, a);
    if a.Advance? {
      assert !MayHold(w, realm, a.id);
      if a.id in w.calls {
        AdvanceHoldsNothing(w, realm, a.id, a.outcome);
      }
    }
    forall id
      ensures !MayHold(v, realm, id)
    {
      assert !MayHold(w, realm, id);
      if id in w.calls && !(a.Advance? && a.id == id) {
        CannotStays(w, v, realm, id);
      } else if a.Advance? && a.id == id {
      } else {
        ElsewhereCannot(v, realm, id);
      }
    }
    FieldsAfter(w, realm, a);
  }

  lemma ElsewhereCannot(w: World, realm: RealmId, id: CallId)
    requires id in w.calls ==> w.calls[id].realm != realm || w.calls[id].CloseSnapshot?
    ensures !MayHold(w, realm, id)
  {}

  lemma FieldsAfter(w: World, realm: RealmId, a: Action)
    requires !StartsIn(a, Some(realm))
    requires a.Advance? ==> MemoryOf(Step(w, a), realm).stamper == MemoryOf(w, realm).stamper
    ensures MemoryOf(Step(w, a), realm).stamper == StamperAfter(w, realm, a)
  {
    hide AdvanceOpen, AdvanceEnsure, BeginOpen, BeginEnsure;
  }

  lemma {:induction false} RunStaysShut(w: World, realm: RealmId, actions: seq<Action>)
    requires Inv(w) && Shut(w, realm) && Avoids(actions, Some(realm))
    ensures Shut(Run(w, actions), realm)
  {
    hide Inv, Shut, Step;
    if actions != [] {
      var before := actions[..|actions| - 1];
      assert Avoids(before, Some(realm));
      RunStaysShut(w, realm, before);
      RunKeepsInv(w, before);
      StepStaysShut(Run(w, before), realm, actions[|actions| - 1]);
    }
  }

  lemma StepStaysShut(w: World, realm: RealmId, a: Action)
    requires Inv(w) && Shut(w, realm) && !StartsIn(a, Some(realm))
    ensures Shut(Step(w, a), realm)
  {
    NothingHeldAnew(w, realm, a);
    hide Inv, Step, MayHold;
  }

  // The other direction: what can hold does, in some continuation.

  function Rank(open: OpenPhase): nat {
    match open
    case RemovingSnapshot => 6
    case ClearingKey => 5
    case KeyCleared => 4
    case Initialising => 3
    case Resetting => 2
    case Registering(_) => 1
    case _ => 0
  }

  /** The key the call will hold: its own, or the next one. */
  function KeyToHold(w: World, open: OpenPhase): Key {
    match open
    case Registering(key) => key
    case Registered(key) => key
    case _ => w.nextKey
  }

  /** An `open` that has not held its key yet does, when nothing goes wrong. */
  lemma {:induction false} OpenHolds(s0: World, q: Option<RealmId>, w: World, id: CallId) returns (v: World)
    requires Leads(s0, q, w) && id in w.calls && w.calls[id].Open? && Unheld(w.calls[id].open)
    ensures Leads(s0, q, v)
    ensures var c := w.calls[id]; var m := MemoryOf(v, c.realm);
            m.stamper == Some(KeyToHold(w, c.open)) && m.currentAccountId == Some(c.account)
    decreases if id in w.calls && w.calls[id].Open? then Rank(w.calls[id].open) else 0
  {
    hide Leads;
    var c := w.calls[id];
    v := OpenAdvances(s0, q, w, id);
    if !c.open.Registered? {
      v := OpenHolds(s0, q, v, id);
    }
  }

  lemma EnsureAdvances(s0: World, q: Option<RealmId>, w: World, id: CallId) returns (v: World)
    requires Leads(s0, q, w) && id in w.calls && w.calls[id].Ensure?
    ensures Leads(s0, q, v) && v == AdvanceEnsure(w, id, w.calls[id], FINE)
  {
    LeadsStep(s0, q, w, Advance(id, FINE));
    v := Step(w, Advance(id, FINE));
  }

  /** The same for an `ensureClient` that has read what it can adopt. */
  lemma EnsureHolds(s0: World, q: Option<RealmId>, w: World, id: CallId) returns (v: World)
    requires Leads(s0, q, w) && id in w.calls && w.calls[id].Ensure? && !w.calls[id].ensure.Reading?
    requires MayHold(w, w.calls[id].realm, id)
    ensures Leads(s0, q, v) && MemoryOf(v, w.calls[id].realm).stamper.Some?
  {
    hide Leads;
    var c := w.calls[id];
    v := EnsureAdvances(s0, q, w, id);
    if !c.ensure.Adopted? {
      v := EnsureAdvances(s0, q, v, id);
      if !c.ensure.Adopting? {
        v := EnsureAdvances(s0, q, v, id);
      }
    }
  }

  lemma {:induction false} FreshNat(taken: set<nat>) returns (n: nat)
    ensures n !in taken && forall m :: m in taken ==> m < n
    decreases |taken|
  {
    if taken == {} {
      n := 0;
    } else {
      var m :| m in taken;
      var rest := FreshNat(taken - {m});
      n := if rest > m then rest else m + 1;
      assert taken == (taken - {m}) + {m};
    }
  }

  /** One that has yet to read the snapshot adopts what another realm opens meanwhile. */
  lemma ReadingHolds(w: World, realm: RealmId, id: CallId) returns (v: World)
    requires id in w.calls && w.calls[id].Ensure? && w.calls[id].ensure == Reading && w.calls[id].realm == realm
    ensures Leads(w, Some(realm), v) && MemoryOf(v, realm).stamper.Some?
  {
    var openId := FreshNat(w.calls.Keys);
    var other := FreshNat(w.realms.Keys + {realm});
    var account := w.calls[id].account;
    LeadsNowhere(w, Some(realm));
    hide Leads, ClampTtl;
    assert MemoryOf(w, other) == EMPTY;
    v := OpenRuns(w, Some(realm), w, openId, other, account, Finite(600.0));
    assert v.calls[id] == Ensure(realm, account, Reading);
    v := EnsureRuns(w, Some(realm), v, id, realm, v.snapshot.value);
  }

  lemma MayHoldDoes(w: World, realm: RealmId, id: CallId) returns (v: World)
    requires MayHold(w, realm, id)
    ensures Leads(w, Some(realm), v) && MemoryOf(v, realm).stamper.Some?
  {
    LeadsNowhere(w, Some(realm));
    hide Leads;
    if w.calls[id].Open? {
      v := OpenHolds(w, Some(realm), w, id);
    } else if w.calls[id].ensure.Reading? {
      v := ReadingHolds(w, realm, id);
    } else {
      v := EnsureHolds(w, Some(realm), w, id);
    }
  }

  /** A realm that serves nothing serves something again, without a new `open` or
      `ensureClient` of its own, if and only if a call under way can still hold. */
  lemma OnlyCallsUnderWayHold(w: World, realm: RealmId)
    requires Reachable(w) && MemoryOf(w, realm).stamper == None
    ensures (exists v :: Leads(w, Some(realm), v) && MemoryOf(v, realm).stamper.Some?)
       <==> exists id :: MayHold(w, realm, id)
  {
    ReachableInv(w);
    hide Inv, Reachable, MayHold;
    if exists id :: MayHold(w, realm, id) {
      var id :| MayHold(w, realm, id);
      var v := MayHoldDoes(w, realm, id);
    } else {
      assert Shut(w, realm);
      forall v | Leads(w, Some(realm), v)
        ensures MemoryOf(v, realm).stamper == None
      {
        var actions :| Avoids(actions, Some(realm)) && Run(w, actions) == v;
        RunStaysShut(w, realm, actions);
      }
    }
  }

  // ----- From the start of a `close()` to its end

  ghost predicate Closing(w: World, id: CallId, realm: RealmId) {
    id in w.calls
      && (w.calls[id] == CloseSnapshot(realm) || w.calls[id] == CloseKey(realm) || w.calls[id] == Closed(realm))
  }

  lemma {:induction false} StaysClosing(w: World, id: CallId, realm: RealmId, actions: seq<Action>)
    requires Closing(w, id, realm)
    ensures Closing(Run(w, actions), id, realm)
  {
    if actions != [] {
      var before := actions[..|actions| - 1];
      StaysClosing(w, id, realm, before);
      StepStaysClosing(Run(w, before), id, realm, actions[|actions| - 1]);
    }
  }

  lemma StepStaysClosing(w: World, id: CallId, realm: RealmId, a: Action)
    requires Closing(w, id, realm)
    ensures Closing(Step(w, a), id, realm)
  {
    if !(a.Advance? && a.id == id) {
      StepShape(w, a);
      hide Step;
    }
    hide AdvanceOpen, AdvanceEnsure;
  }

  lemma CloseEnds(s0: World, q: Option<RealmId>, w: World, id: CallId, realm: RealmId) returns (v: World)
    requires Leads(s0, q, w) && Closing(w, id, realm)
    ensures Leads(s0, q, v) && v.realms == w.realms && id in v.calls && v.calls[id] == Closed(realm)
  {
    hide Leads;
    v := w;
    if v.calls[id].CloseSnapshot? {
      LeadsStep(s0, q, v, Advance(id, FINE));
      v := Step(v, Advance(id, FINE));
    }
    if v.calls[id].CloseKey? {
      LeadsStep(s0, q, v, Advance(id, FINE));
      v := Step(v, Advance(id, FINE));
    }
  }

  /** `close()` is final -- once it has completed its realm serves nothing until it is
      asked to -- if and only if, when it is called, no call of the realm is under way
      that can still hold. */
  lemma CloseIsFinal(w: World, id: CallId, realm: RealmId)
    requires Reachable(w) && id !in w.calls
    ensures (exists v :: Leads(Step(w, StartClose(id, realm)), Some(realm), v)
                         && id in v.calls && v.calls[id] == Closed(realm) && MemoryOf(v, realm).stamper.Some?)
       <==> exists other :: MayHold(w, realm, other)
  {
    var w1 := Step(w, StartClose(id, realm));
    ReachableStep(w, StartClose(id, realm));
    OnlyCallsUnderWayHold(w1, realm);
    assert Closing(w1, id, realm);
    forall other
      ensures MayHold(w1, realm, other) <==> MayHold(w, realm, other)
    {}
    hide Reachable, MayHold, Step, Closing;
    if exists other :: MayHold(w, realm, other) {
      var other :| MayHold(w, realm, other);
      assert MayHold(w1, realm, other);
      var v :| Leads(w1, Some(realm), v) && MemoryOf(v, realm).stamper.Some?;
      var actions :| Avoids(actions, Some(realm)) && Run(w1, actions) == v;
      StaysClosing(w1, id, realm, actions);
      var v' := CloseEnds(w1, Some(realm), v, id, realm);
    }
  }

  // ----- What is not promised

  /** A `close()` of realm 0 from start to end, with no snapshot published. */
  lemma CloseRuns(w: World, id: CallId) returns (w': World)
    requires Reachable(w) && id !in w.calls && 0 in w.realms && w.snapshot == None
    ensures Reachable(w')
    ensures w' == w.(disk := None, realms := w.realms[0 := Forget(w.realms[0])], calls := w.calls[id := Closed(0)])
  {
    hide Reachable, Run, AdvanceOpen, AdvanceEnsure;
    ReachableStep(w, StartClose(id, 0));
    var w1 := Step(w, StartClose(id, 0));
    ReachableStep(w1, Advance(id, FINE));
    var w2 := Step(w1, Advance(id, FINE));
    assert w2 == w1.(calls := w.calls[id := CloseKey(0)]);
    ReachableStep(w2, Advance(id, FINE));
    w' := Step(w2, Advance(id, FINE));
  }

  /** `close()` returns while an `open("a")` is under way, and then that `open`
      finishes: the realm serves the key although nothing was opened after it. */
  lemma OpenFinishesAfterClose() returns (w: World)
    ensures Reachable(w)
    ensures w.calls.Keys == {0, 1} && w.calls[1] == Closed(0)
    ensures ClientFor(MemoryOf(w, 0), Some("a"), w.now) == Some(0)
  {
    hide Reachable, Leads, Run;
    StartIsReachable();
    LeadsNowhere(START, None);
    var w0 := OpenRegisters(START, None, START, 0, 0, "a", Finite(600.0));
    LeadsStaysReachable(START, None, w0);
    var w1 := CloseRuns(w0, 1);
    assert w1.calls[0] == Open(0, "a", 600, Registered(0)) && w1.now == 0;
    ReachableStep(w1, Advance(0, FINE));
    w := Step(w1, Advance(0, FINE));
  }

  /** `ensureClient("b")` that joins a pending `ensureClient("a")` returns the key
      registered for "a". */
  lemma JoinedEnsureServesAnotherAccount() returns (w: World)
    ensures Reachable(w)
    ensures w.calls.Keys == {0, 1, 2} && w.calls[2].Ensure? && w.calls[2].account == "b"
    ensures ResultOf(w, 2) == Some(0) && 0 in w.registry && w.registry[0] == "a"
  {
    hide Reachable, Leads, Run, AdvanceOpen, AdvanceEnsure;
    StartIsReachable();
    var w1 := UndisturbedOpenServes(START, 0, 0, "a", Finite(600.0));
    assert MemoryOf(w1, 1) == EMPTY;
    ReachableStep(w1, StartEnsure(1, 1, "a"));
    var w2 := Step(w1, StartEnsure(1, 1, "a"));
    assert w2 == w1.(realms := w1.realms[1 := EMPTY.(pendingEnsure := Some(1))],
                     calls := w1.calls[1 := Ensure(1, "a", Reading)]);
    ReachableStep(w2, StartEnsure(2, 1, "b"));
    var w3 := Step(w2, StartEnsure(2, 1, "b"));
    assert w3.calls == w2.calls[2 := Ensure(1, "b", EnsureJoined(1))];
    LeadsNowhere(w3, None);
    w := EnsureRuns(w3, None, w3, 1, 1, Snapshot("a", 600_000, 0));
    LeadsStaysReachable(w3, None, w);
  }
}
