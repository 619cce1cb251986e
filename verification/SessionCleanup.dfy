/** What `open`, `ensureClient` and `close()` answer and leave behind: the key on disk, the
    published snapshot and the realm's fields. */
module SessionCleanup {
  import opened Options
  import opened SessionMemory
  import opened SessionProtocol
  import opened SessionRuns

  lemma RunTwo(w: World, a: Action, b: Action)
    ensures Run(w, [a, b]) == Step(Step(w, a), b)
  {
    hide Step;
    assert [a, b][..1] == [a] && [a][..0] == [];
    assert Run(w, [a]) == Step(Run(w, []), a);
  }

  lemma RunThree(w: World, a: Action, b: Action, c: Action)
    ensures Run(w, [a, b, c]) == Step(Step(Step(w, a), b), c)
  {
    RunTwo(w, a, b);
    hide Step;
    assert [a, b, c][..2] == [a, b];
  }

  lemma OpenStep(w: World, id: CallId, o: Outcome)
    requires id in w.calls && w.calls[id].Open?
    ensures Step(w, Advance(id, o)) == AdvanceOpen(w, id, w.calls[id], o)
  {}

  // ----- A registration that is refused

  /** A refused registration ends its `open` with the gate released and without a session;
      the key it minted is cleared from the disk, if clearing succeeds, and nothing that
      the realms share changes otherwise. */
  lemma RefusedOpenCleans(w: World, id: CallId, key: Key, recorded: bool, cleared: bool, o: Outcome)
    requires id in w.calls && w.calls[id].Open? && w.calls[id].open == Registering(key)
    ensures var c := w.calls[id]; var m := MemoryOf(w, c.realm);
      Run(w, [Advance(id, Outcome(false, recorded, false)), Advance(id, Outcome(cleared, false, false)),
              Advance(id, o)])
      == w.(disk := if cleared then None else w.disk,
            registry := if recorded then w.registry[key := c.account] else w.registry,
            realms := w.realms[c.realm :=
              Memory(m.stamper, m.currentAccountId, m.expiresAt, None, m.pendingEnsure)],
            calls := w.calls[id := Open(c.realm, c.account, c.ttl, OpenFailed)])
  {
    var refused, clear := Outcome(false, recorded, false), Outcome(cleared, false, false);
    RunThree(w, Advance(id, refused), Advance(id, clear), Advance(id, o));
    Refused(w, id, key, refused);
    hide Run, Step;
    var c := w.calls[id];
    var w1 := Step(w, Advance(id, refused));
    RejectedEnds(w1, id, key, clear, o);
    assert w1.calls[id := Open(c.realm, c.account, c.ttl, OpenFailed)]
        == w.calls[id := Open(c.realm, c.account, c.ttl, OpenFailed)];
  }

  lemma Refused(w: World, id: CallId, key: Key, o: Outcome)
    requires id in w.calls && w.calls[id].Open? && w.calls[id].open == Registering(key) && !o.ok
    ensures Step(w, Advance(id, o)) ==
            w.(registry := if o.recorded then w.registry[key := w.calls[id].account] else w.registry,
               calls := w.calls[id := w.calls[id].(open := Rejecting(key))])
  {
    OpenStep(w, id, o);
    hide Step;
  }

  lemma RejectedEnds(w: World, id: CallId, key: Key, clear: Outcome, o: Outcome)
    requires id in w.calls && w.calls[id].Open? && w.calls[id].open == Rejecting(key)
    ensures var c := w.calls[id]; var m := MemoryOf(w, c.realm);
      Step(Step(w, Advance(id, clear)), Advance(id, o))
      == w.(disk := if clear.ok then None else w.disk, realms := w.realms[c.realm := m.(pendingOpen := None)],
            calls := w.calls[id := c.(open := OpenFailed)])
  {
    OpenStep(w, id, clear);
    var c := w.calls[id];
    var w1 := AdvanceOpen(w, id, c, clear);
    assert w1 == w.(disk := if clear.ok then None else w.disk, calls := w.calls[id := c.(open := Rejected)]);
    hide Step;
    OpenStep(w1, id, o);
    assert AdvanceOpen(w1, id, w1.calls[id], o).calls == w.calls[id := c.(open := OpenFailed)];
  }

  // ----- Closing

  /** The keys whose removal is announced once the snapshot of now is removed. */
  function RemovedWith(w: World): set<Key> {
    if w.snapshot.Some? then w.removed + {w.snapshot.value.publicKey} else w.removed
  }

  /** A `close()` from start to end: the realm holds no session, the snapshot is gone and
      its removal announced, and so is the key on disk, if clearing it succeeds.  The
      gates stay as they were, and so does everything else. */
  lemma CloseClears(w: World, id: CallId, realm: RealmId, removed: Outcome, cleared: Outcome)
    requires id !in w.calls
    ensures var m := MemoryOf(w, realm);
      Run(w, [StartClose(id, realm), Advance(id, removed), Advance(id, cleared)])
      == w.(snapshot := None, removed := RemovedWith(w), disk := if cleared.ok then None else w.disk,
            realms := w.realms[realm := Memory(None, None, 0, m.pendingOpen, m.pendingEnsure)],
            calls := w.calls[id := Closed(realm)])
  {
    RunThree(w, StartClose(id, realm), Advance(id, removed), Advance(id, cleared));
    hide Run, AdvanceOpen, AdvanceEnsure, BeginOpen, BeginEnsure;
    var w1 := Step(w, StartClose(id, realm));
    var w2 := Step(w1, Advance(id, removed));
    assert w2.calls == w.calls[id := CloseKey(realm)];
    var w3 := Step(w2, Advance(id, cleared));
    assert w3.calls == w.calls[id := Closed(realm)];
  }

  /** An `open` that finds another account's session closes that first, in the same way,
      and passes the gate after it. */
  lemma OpenClosesFirst(w: World, id: CallId, realm: RealmId, account: AccountId, ttl: Number,
                        removed: Outcome, cleared: Outcome, o: Outcome)
    requires id !in w.calls
    requires MemoryOf(w, realm).pendingOpen == None && MemoryOf(w, realm).currentAccountId.Some?
    requires MemoryOf(w, realm).currentAccountId.value != ""
    requires MemoryOf(w, realm).currentAccountId.value != account
    ensures var m := MemoryOf(w, realm);
      Step(Run(w, [StartOpen(id, realm, account, ttl), Advance(id, removed), Advance(id, cleared)]), Advance(id, o))
      == w.(snapshot := None, removed := RemovedWith(w), disk := if cleared.ok then None else w.disk,
            realms := w.realms[realm := Memory(None, None, 0, Some(id), m.pendingEnsure)],
            calls := w.calls[id := Open(realm, account, ClampTtl(ttl), Initialising)])
  {
    RunThree(w, StartOpen(id, realm, account, ttl), Advance(id, removed), Advance(id, cleared));
    hide Run, ClampTtl, AdvanceOpen, AdvanceEnsure, BeginEnsure;
    var w1 := Step(w, StartOpen(id, realm, account, ttl));
    assert w1 == w.(realms := w.realms[realm := Memory(None, None, 0, None, MemoryOf(w, realm).pendingEnsure)],
                    calls := w.calls[id := Open(realm, account, ClampTtl(ttl), RemovingSnapshot)]);
    hide Step, BeginOpen;
    ClosesThenPasses(w1, id, removed, cleared, o);
    var c := Open(realm, account, ClampTtl(ttl), Initialising);
    assert w1.calls[id := c] == w.calls[id := c];
    var m := Memory(None, None, 0, Some(id), MemoryOf(w, realm).pendingEnsure);
    assert w1.realms[realm := m] == w.realms[realm := m];
  }

  lemma ClosesThenPasses(w: World, id: CallId, removed: Outcome, cleared: Outcome, o: Outcome)
    requires id in w.calls && w.calls[id].Open? && w.calls[id].open == RemovingSnapshot
    ensures var c := w.calls[id]; var m := MemoryOf(w, c.realm);
      Step(Step(Step(w, Advance(id, removed)), Advance(id, cleared)), Advance(id, o))
      == w.(snapshot := None, removed := RemovedWith(w), disk := if cleared.ok then None else w.disk,
            realms := w.realms[c.realm := m.(pendingOpen := Some(id))],
            calls := w.calls[id := c.(open := Initialising)])
  {
    var c := w.calls[id];
    hide Step, Mint, InitStamper;
    OpenStep(w, id, removed);
    var w1 := w.(snapshot := None, removed := RemovedWith(w), calls := w.calls[id := c.(open := ClearingKey)]);
    assert AdvanceOpen(w, id, c, removed) == w1;
    OpenStep(w1, id, cleared);
    var w2 := w1.(disk := if cleared.ok then None else w.disk, calls := w.calls[id := c.(open := KeyCleared)]);
    assert AdvanceOpen(w1, id, w1.calls[id], cleared).calls == w2.calls;
    OpenStep(w2, id, o);
    assert AdvanceOpen(w2, id, w2.calls[id], o).calls == w.calls[id := c.(open := Initialising)];
  }

  // ----- What `open` answers at once

  /** The gate is looked at first: while an `open` is past it a second one joins it,
      whatever account it is for.  Otherwise a session of the account is reused as long as
      it has more than half a minute left; one of another account is closed first; and in
      all other cases the call passes the gate. */
  lemma OpenAnswers(w: World, id: CallId, realm: RealmId, account: AccountId, ttl: Number)
    requires id !in w.calls
    ensures var m := MemoryOf(w, realm);
      var v := Step(w, StartOpen(id, realm, account, ttl));
      && id in v.calls && v.calls[id].Open? && v.calls[id].realm == realm && v.calls[id].account == account
      && v == w.(realms := v.realms, calls := w.calls[id := v.calls[id]])
      && v.realms == w.realms[realm := MemoryOf(v, realm)]
      && var reused := m.stamper.Some? && m.currentAccountId == Some(account) && w.now < m.expiresAt - 30_000;
         var foreign := m.currentAccountId.Some? && m.currentAccountId.value != ""
                        && m.currentAccountId.value != account;
         if m.pendingOpen.Some? then v.calls[id].open == OpenJoined(m.pendingOpen.value) && MemoryOf(v, realm) == m
         else if reused then v.calls[id].open == Opened(m.stamper.value) && MemoryOf(v, realm) == m
         else if foreign then
           v.calls[id].open == RemovingSnapshot && MemoryOf(v, realm) == Memory(None, None, 0, None, m.pendingEnsure)
         else
           v.calls[id].open == Initialising
           && MemoryOf(v, realm) == Memory(m.stamper, m.currentAccountId, m.expiresAt, Some(id), m.pendingEnsure)
  {
    hide ClampTtl, AdvanceOpen, AdvanceEnsure, BeginEnsure;
  }

  /** How long a session lives: the lifetime asked for, rounded down to seconds, and at
      least one minute and at most one hour. */
  lemma Lifetimes(seconds: real)
    ensures ClampTtl(NotFinite) == 60
    ensures seconds < 60.0 ==> ClampTtl(Finite(seconds)) == 60
    ensures seconds > 3600.0 ==> ClampTtl(Finite(seconds)) == 3600
    ensures 60.0 <= seconds <= 3600.0 ==>
              (ClampTtl(Finite(seconds)) as real) <= seconds < (ClampTtl(Finite(seconds)) as real) + 1.0
  {}

  /** After an `open` that nothing disturbed its realm serves the key until half a minute
      before the end of its life, and no longer. */
  lemma ServedUntil(w: World, id: CallId, realm: RealmId, account: AccountId, ttl: Number, ms: nat) returns (v: World)
    requires Reachable(w) && id !in w.calls && Idle(MemoryOf(w, realm))
    ensures Reachable(v) && v.now == w.now + ms && id in v.calls && ResultOf(v, id) == Some(w.nextKey)
    ensures ClientFor(MemoryOf(v, realm), Some(account), v.now) ==
            if ms < ClampTtl(ttl) * 1000 - 30_000 then Some(w.nextKey) else None
  {
    LeadsNowhere(w, None);
    hide Reachable, Leads, ClampTtl, Run, AdvanceOpen, AdvanceEnsure, BeginOpen, BeginEnsure;
    var u := OpenRuns(w, None, w, id, realm, account, ttl);
    LeadsStaysReachable(w, None, u);
    ReachableStep(u, Tick(ms));
    v := Step(u, Tick(ms));
    assert MemoryOf(v, realm) == Hold(EMPTY, w.nextKey, account, w.now + ClampTtl(ttl) * 1000);
  }

  // ----- What `ensureClient` leaves behind

  lemma EnsureStep(w: World, id: CallId, o: Outcome)
    requires id in w.calls && w.calls[id].Ensure?
    ensures Step(w, Advance(id, o)) == AdvanceEnsure(w, id, w.calls[id], o)
  {}

  /** An `ensureClient` that has read the snapshot ends there when there is none or it is
      another account's, goes on to the disk when it has more than half a minute left, and
      discards otherwise. */
  lemma SnapshotDecides(w: World, id: CallId, found: Option<Snapshot>, o: Outcome)
    requires id in w.calls && w.calls[id].Ensure? && w.calls[id].ensure == Read(found)
    ensures var c := w.calls[id]; var m := MemoryOf(w, c.realm); var v := Step(w, Advance(id, o));
      if found == None || found.value.accountId != c.account then
        v == w.(realms := w.realms[c.realm := Memory(m.stamper, m.currentAccountId, m.expiresAt, m.pendingOpen, None)],
                calls := w.calls[id := Ensure(c.realm, c.account, Ensured(None))])
      else
        && v.calls == w.calls[id := Ensure(c.realm, c.account,
             if w.now < found.value.expiresAt - 30_000 then Adopting(found.value) else Discarding)]
        && MemoryOf(v, c.realm) == m && v.(calls := w.calls, realms := w.realms) == w
  {
    EnsureStep(w, id, o);
    hide Step;
  }

  /** It adopts the session exactly when the key on disk is the one the snapshot names; a
      key that reading the disk has minted is not, and the snapshot then goes. */
  lemma DiskDecides(w: World, id: CallId, s: Snapshot, o: Outcome, p: Outcome)
    requires id in w.calls && w.calls[id].Ensure? && w.calls[id].ensure == Adopting(s)
    ensures var c := w.calls[id]; var m := MemoryOf(w, c.realm);
      var u := Step(w, Advance(id, o)); var v := Step(u, Advance(id, p));
      && u.disk == (if w.disk == None && o.generates then Some(w.nextKey) else w.disk)
      && v.disk == u.disk && v.snapshot == w.snapshot && v.removed == w.removed
      && if u.disk == Some(s.publicKey) then
           MemoryOf(v, c.realm) == Memory(Some(s.publicKey), Some(s.accountId), s.expiresAt, m.pendingOpen, None)
           && v.calls == w.calls[id := Ensure(c.realm, c.account, Ensured(Some(s.publicKey)))]
         else MemoryOf(v, c.realm) == m && v.calls == w.calls[id := Ensure(c.realm, c.account, Discarding)]
  {
    var c := w.calls[id];
    EnsureStep(w, id, o);
    var u := AdvanceEnsure(w, id, c, o);
    assert u.calls[id] == Ensure(c.realm, c.account, Adopted(s, u.disk)) && u.calls == w.calls[id := u.calls[id]];
    assert u.realms == w.realms && u.snapshot == w.snapshot && u.removed == w.removed;
    hide Step;
    EnsureStep(u, id, p);
    hide InitStamper, Mint;
  }

  /** Discarding removes the snapshot that is there by then, and ends without a session. */
  lemma DiscardRemoves(w: World, id: CallId, o: Outcome, p: Outcome)
    requires id in w.calls && w.calls[id].Ensure? && w.calls[id].ensure == Discarding
    ensures var c := w.calls[id]; var m := MemoryOf(w, c.realm);
      Run(w, [Advance(id, o), Advance(id, p)])
      == w.(snapshot := None, removed := RemovedWith(w),
            realms := w.realms[c.realm := Memory(m.stamper, m.currentAccountId, m.expiresAt, m.pendingOpen, None)],
            calls := w.calls[id := Ensure(c.realm, c.account, Ensured(None))])
  {
    var c := w.calls[id];
    RunTwo(w, Advance(id, o), Advance(id, p));
    EnsureStep(w, id, o);
    var w1 := w.(snapshot := None, removed := RemovedWith(w), calls := w.calls[id := c.(ensure := Discarded)]);
    assert AdvanceEnsure(w, id, c, o) == w1;
    hide Step, Run;
    EnsureStep(w1, id, p);
    assert AdvanceEnsure(w1, id, w1.calls[id], p).calls == w.calls[id := c.(ensure := Ensured(None))];
  }
}
