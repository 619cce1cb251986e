/** How long a session lasts in the realm that holds it, and what ends it from outside. */
module SessionEnds {
  import opened Options
  import opened SessionMemory
  import opened SessionProtocol
  import opened SessionRuns

  /** The snapshot that is published names `key`. */
  predicate Names(w: World, key: Key) {
    w.snapshot.Some? && w.snapshot.value.publicKey == key
  }

  /** The call is about to remove whatever snapshot is published: a close, an `open` that
      closes another account's session first, or an `ensureClient` that found a snapshot
      expired or not to name the key on disk. */
  predicate RemovesNext(c: Call) {
    c.CloseSnapshot? || (c.Open? && c.open.RemovingSnapshot?) || (c.Ensure? && c.ensure.Discarding?)
  }

  predicate Removes(w: World, a: Action, key: Key) {
    a.Advance? && a.id in w.calls && RemovesNext(w.calls[a.id]) && Names(w, key)
  }

  /** The action starts a call in the realm other than one that returns at once with what
      the realm holds, or that joins a call under way. */
  predicate Disturbs(w: World, realm: RealmId, a: Action) {
    match a
    case StartOpen(id, r, account, _) =>
      r == realm && id !in w.calls
      && var phase := BeginOpen(MemoryOf(w, r), id, account, w.now).1; !phase.Opened? && !phase.OpenJoined?
    case StartEnsure(id, r, account) =>
      r == realm && id !in w.calls
      && var phase := BeginEnsure(MemoryOf(w, r), id, account, w.now).1; !phase.Ensured? && !phase.EnsureJoined?
    case StartClose(id, r) => r == realm && id !in w.calls
    case _ => false
  }

  function Undisturbed(realm: RealmId): Rule {
    (w: World, a: Action) => !Disturbs(w, realm, a)
  }

  ghost predicate NoneMayHold(w: World, realm: RealmId) {
    forall id :: !MayHold(w, realm, id)
  }

  /** The realm holds `key`, it has not been announced that its snapshot was removed, and
      no call of the realm is under way that could make it hold another key. */
  ghost predicate Settled(w: World, realm: RealmId, key: Key) {
    MemoryOf(w, realm).stamper == Some(key) && key !in w.removed && NoneMayHold(w, realm)
  }

  ghost predicate RemovesAt(w: World, actions: seq<Action>, i: int, key: Key) {
    0 <= i < |actions| && Removes(Run(w, actions[..i]), actions[i], key)
  }

  ghost predicate Announced(w: World, actions: seq<Action>, key: Key) {
    exists i :: RemovesAt(w, actions, i, key)
  }

  /** The realm is told of the removal after it happened. */
  ghost predicate ToldAt(w: World, realm: RealmId, key: Key, actions: seq<Action>, i: int, j: int) {
    RemovesAt(w, actions, i, key) && i < j < |actions| && actions[j] == Deliver(realm, key)
  }

  ghost predicate Told(w: World, realm: RealmId, key: Key, actions: seq<Action>) {
    exists i, j :: ToldAt(w, realm, key, actions, i, j)
  }

  // ----- One step

  /** A call that is answered at once changes nothing. */
  lemma AnsweredAtOnce(w: World, realm: RealmId, a: Action)
    requires StartsIn(a, Some(realm)) && !Disturbs(w, realm, a)
    ensures var v := Step(w, a);
            && v.removed == w.removed && v.now == w.now && v.disk == w.disk
            && MemoryOf(v, realm) == MemoryOf(w, realm)
            && (NoneMayHold(w, realm) ==> NoneMayHold(v, realm))
  {
    var v := Step(w, a);
    assert MemoryOf(v, realm) == MemoryOf(w, realm);
    assert v == w || (a.id in v.calls && v.calls == w.calls[a.id := v.calls[a.id]] && !MayHold(v, realm, a.id));
    hide Step, BeginOpen, BeginEnsure;
    if NoneMayHold(w, realm) {
      forall id
        ensures !MayHold(v, realm, id)
      {
        assert !MayHold(w, realm, id);
      }
    }
  }

  /** What an answered call does to the snapshot. */
  function SnapshotAfter(w: World, c: Call): Option<Snapshot> {
    if RemovesNext(c) then None
    else if c.Open? && c.open.Writing? then Some(Snapshot(c.account, c.open.expiresAt, c.open.key))
    else w.snapshot
  }

  ghost predicate ChangesSnapshot(w: World, c: Call, v: World) {
    v.snapshot == SnapshotAfter(w, c) && v.removed == if RemovesNext(c) then RemoveSnapshot(w).removed else w.removed
  }

  lemma OpenChangesSnapshot(w: World, id: CallId, c: Call, o: Outcome)
    requires c.Open?
    ensures ChangesSnapshot(w, c, AdvanceOpen(w, id, c, o))
  {
    if c.open.RemovingSnapshot? || c.open.Writing? {
      hide Mint, InitStamper, SetOpen, EnterOpen, LeaveOpen, AfterRegister, MemoryOf;
    } else if Resumes(c.open) {
      ResumeChangesNothing(w, id, c, o);
      hide AdvanceOpen;
    } else {
      EffectChangesNothing(w, id, c, o);
      hide AdvanceOpen;
    }
  }

  lemma ResumeChangesNothing(w: World, id: CallId, c: Call, o: Outcome)
    requires c.Open? && Resumes(c.open)
    ensures AdvanceOpen(w, id, c, o).snapshot == w.snapshot && AdvanceOpen(w, id, c, o).removed == w.removed
  {
    hide EnterOpen, LeaveOpen, AfterRegister, RemoveSnapshot, OpenAt, Mint, InitStamper;
  }

  lemma EffectChangesNothing(w: World, id: CallId, c: Call, o: Outcome)
    requires c.Open? && !Resumes(c.open) && !c.open.RemovingSnapshot? && !c.open.Writing?
    ensures AdvanceOpen(w, id, c, o).snapshot == w.snapshot && AdvanceOpen(w, id, c, o).removed == w.removed
  {
    hide EnterOpen, LeaveOpen, AfterRegister, RemoveSnapshot, MemoryOf, SetOpen;
    match c.open
    case ClearingKey =>
    case Initialising =>
    case Resetting =>
    case Registering(_) =>
    case Rejecting(_) =>
    case _ =>
  }

  lemma EnsureChangesSnapshot(w: World, id: CallId, c: Call, o: Outcome)
    requires c.Ensure?
    ensures ChangesSnapshot(w, c, AdvanceEnsure(w, id, c, o))
  {
    hide MemoryOf, AfterRead, AfterAdopt, LeaveEnsure;
  }

  lemma SnapshotChanges(w: World, a: Action)
    ensures if a.Advance? && a.id in w.calls then ChangesSnapshot(w, w.calls[a.id], Step(w, a))
            else Step(w, a).snapshot == w.snapshot && Step(w, a).removed == w.removed
  {
    hide AdvanceOpen, AdvanceEnsure, BeginOpen, BeginEnsure;
    if a.Advance? && a.id in w.calls {
      if w.calls[a.id].Open? {
        OpenChangesSnapshot(w, a.id, w.calls[a.id], a.outcome);
        hide ChangesSnapshot;
      } else if w.calls[a.id].Ensure? {
        EnsureChangesSnapshot(w, a.id, w.calls[a.id], a.outcome);
        hide ChangesSnapshot;
      }
    }
  }

  lemma AnnouncedByRemoval(w: World, a: Action, key: Key)
    ensures key in Step(w, a).removed <==> key in w.removed || Removes(w, a, key)
  {
    SnapshotChanges(w, a);
    hide Step;
  }

  lemma StepLasts(w: World, realm: RealmId, a: Action)
    requires Inv(w) && NoneMayHold(w, realm) && !Disturbs(w, realm, a)
    ensures NoneMayHold(Step(w, a), realm)
    ensures var stamper := MemoryOf(w, realm).stamper;
            MemoryOf(Step(w, a), realm).stamper ==
            if a.Deliver? && a.realm == realm && a.key in w.removed && stamper == Some(a.key) then None else stamper
  {
    if StartsIn(a, Some(realm)) {
      AnsweredAtOnce(w, realm, a);
    } else {
      NothingHeldAnew(w, realm, a);
    }
    hide Inv, Step, MayHold, BeginOpen, BeginEnsure;
  }

  // ----- Runs

  lemma RemovesLonger(w: World, before: seq<Action>, last: Action, key: Key)
    ensures forall i :: 0 <= i < |before| ==> (RemovesAt(w, before + [last], i, key) <==> RemovesAt(w, before, i, key))
    ensures RemovesAt(w, before + [last], |before|, key) <==> Removes(Run(w, before), last, key)
  {
    var all := before + [last];
    assert all[..|before|] == before;
    assert forall i :: 0 <= i < |before| ==> all[..i] == before[..i] && all[i] == before[i];
    hide Run, Removes;
  }

  lemma ToldLonger(w: World, realm: RealmId, key: Key, before: seq<Action>, last: Action)
    ensures Announced(w, before + [last], key) <==> Announced(w, before, key) || Removes(Run(w, before), last, key)
    ensures Told(w, realm, key, before + [last]) <==>
            Told(w, realm, key, before) || (Announced(w, before, key) && last == Deliver(realm, key))
  {
    RemovesLonger(w, before, last, key);
    var all := before + [last];
    assert forall i :: RemovesAt(w, all, i, key) ==> 0 <= i < |all|;
    assert forall i :: RemovesAt(w, before, i, key) ==> 0 <= i < |before| && RemovesAt(w, all, i, key);
    hide RemovesAt, Run, Removes;
    forall i, j
      ensures ToldAt(w, realm, key, before, i, j) ==> ToldAt(w, realm, key, all, i, j)
      ensures ToldAt(w, realm, key, all, i, j) ==>
              ToldAt(w, realm, key, before, i, j) || (RemovesAt(w, before, i, key) && last == Deliver(realm, key))
    {}
    if Announced(w, before, key) && last == Deliver(realm, key) {
      var i :| RemovesAt(w, before, i, key);
      assert ToldAt(w, realm, key, all, i, |before|);
    }
  }

  /** A session that a realm holds lasts exactly until the realm is told that a close, an
      `open` or a stale `ensureClient` -- its own or another realm's -- has removed the
      snapshot while that named the session's key.  Nothing else that other realms do ends
      it, nor do calls of its own that are answered at once. */
  lemma {:induction false} HeldSessionLasts(w: World, realm: RealmId, key: Key, actions: seq<Action>)
    requires Inv(w) && Settled(w, realm, key) && Obeys(w, Undisturbed(realm), actions)
    ensures var v := Run(w, actions);
            && NoneMayHold(v, realm)
            && (key in v.removed <==> Announced(w, actions, key))
            && MemoryOf(v, realm).stamper == if Told(w, realm, key, actions) then None else Some(key)
  {
    if actions != [] {
      var before, last := actions[..|actions| - 1], actions[|actions| - 1];
      assert actions == before + [last];
      ObeysLonger(w, Undisturbed(realm), before, last);
      HeldSessionLasts(w, realm, key, before);
      RunKeepsInv(w, before);
      StepLasts(Run(w, before), realm, last);
      AnnouncedByRemoval(Run(w, before), last, key);
      ToldLonger(w, realm, key, before, last);
      hide Inv, Run, Step, Told, Announced, NoneMayHold, Disturbs, Removes, Obeys;
    }
  }

  // ----- When that can happen

  /** The call publishes `key` next. */
  predicate PublishesNext(w: World, id: CallId, key: Key) {
    id in w.calls && w.calls[id].Open? && w.calls[id].open.Writing? && w.calls[id].open.key == key
  }

  /** No snapshot names `key`, and none will. */
  ghost predicate Unpublished(w: World, key: Key) {
    key in w.sessions && !Names(w, key) && forall id :: !PublishesNext(w, id, key)
  }

  lemma StaysUnpublished(w: World, a: Action, key: Key)
    requires Inv(w) && Unpublished(w, key)
    ensures Unpublished(Step(w, a), key)
  {
    SessionsStay(w, a);
    StepShape(w, a);
    SnapshotChanges(w, a);
    var v := Step(w, a);
    forall id
      ensures !PublishesNext(v, id, key)
    {
      assert !PublishesNext(w, id, key);
      PublishesOwn(w, a, id, key);
      hide Step;
    }
    hide Step, Inv;
    if a.Advance? && a.id in w.calls {
      assert !PublishesNext(w, a.id, key);
    }
  }

  /** An `open` publishes a key of its own, of which no session is recorded yet. */
  lemma PublishesOwn(w: World, a: Action, id: CallId, key: Key)
    requires Inv(w) && key in w.sessions && !PublishesNext(w, id, key)
    ensures !PublishesNext(Step(w, a), id, key)
  {
    if a.Advance? && a.id == id && id in w.calls {
      assert CallOk(w, id);
      hide Inv;
      AnsweredGoesOn(w, id, a.outcome);
      if w.calls[id].Open? {
        NextPublishes(w, id, w.calls[id], a.outcome);
        hide AdvanceOpen;
      } else {
        hide AdvanceOpen, AdvanceEnsure;
      }
    } else {
      hide Inv;
      StepShape(w, a);
      if id !in w.calls {
        StartsNotPublishing(w, a, id, key);
      }
      hide Step;
    }
  }

  lemma NextPublishes(w: World, id: CallId, c: Call, o: Outcome)
    requires c.Open? && id in w.calls && w.calls[id] == c
    ensures var v := AdvanceOpen(w, id, c, o);
            id in v.calls && v.calls[id].Open?
            && (v.calls[id].open.Writing? ==> c.open == Registered(v.calls[id].open.key))
  {
    if Resumes(c.open) {
      ResumePublishes(w, id, c, o);
    } else {
      EffectPublishes(w, id, c, o);
    }
    hide AdvanceOpen;
  }

  lemma ResumePublishes(w: World, id: CallId, c: Call, o: Outcome)
    requires c.Open? && Resumes(c.open)
    ensures var v := AdvanceOpen(w, id, c, o);
            id in v.calls && v.calls[id].Open?
            && (v.calls[id].open.Writing? ==> c.open == Registered(v.calls[id].open.key))
  {
    hide MemoryOf, OpenAt, Hold;
    match c.open
    case KeyCleared =>
    case Rejected =>
    case Registered(_) =>
    case Written(_) =>
  }

  lemma EffectPublishes(w: World, id: CallId, c: Call, o: Outcome)
    requires c.Open? && id in w.calls && w.calls[id] == c && !Resumes(c.open)
    ensures var v := AdvanceOpen(w, id, c, o); id in v.calls && v.calls[id].Open? && !v.calls[id].open.Writing?
  {
    EffectsKeep(w, id, o.generates);
    hide MemoryOf, SetOpen, RemoveSnapshot, Mint, InitStamper;
    match c.open
    case RemovingSnapshot =>
    case ClearingKey =>
    case Initialising =>
    case Resetting =>
    case Registering(_) =>
    case Rejecting(_) =>
    case Writing(_, _) =>
    case _ =>
  }

  lemma StartsNotPublishing(w: World, a: Action, id: CallId, key: Key)
    requires id !in w.calls
    ensures !PublishesNext(Step(w, a), id, key)
  {
    if a.Advance? && a.id in w.calls {
      AnsweredGoesOn(w, a.id, a.outcome);
      hide Step;
    }
    hide AdvanceOpen, AdvanceEnsure;
  }

  lemma {:induction false} NeverRemoved(w: World, actions: seq<Action>, key: Key)
    requires Inv(w) && Unpublished(w, key)
    ensures Unpublished(Run(w, actions), key) && !Announced(w, actions, key)
  {
    hide Inv, Step;
    if actions != [] {
      var before, last := actions[..|actions| - 1], actions[|actions| - 1];
      assert actions == before + [last];
      NeverRemoved(w, before, key);
      RunKeepsInv(w, before);
      StaysUnpublished(Run(w, before), last, key);
      ToldLonger(w, 0, key, before, last);
      hide Announced, Told;
    }
  }

  lemma SnapshotIsRemoved(s0: World, w: World, realm: RealmId, key: Key) returns (v: World)
    requires LeadsUnder(s0, Undisturbed(realm), w) && Names(w, key) && MemoryOf(w, realm).stamper == Some(key)
    ensures LeadsUnder(s0, Undisturbed(realm), v) && MemoryOf(v, realm).stamper == None
  {
    var rule := Undisturbed(realm);
    var id := FreshNat(w.calls.Keys);
    hide LeadsUnder, BeginOpen, BeginEnsure, AdvanceOpen, AdvanceEnsure;
    LeadsUnderStep(s0, rule, w, StartClose(id, realm + 1));
    var w1 := Step(w, StartClose(id, realm + 1));
    LeadsUnderStep(s0, rule, w1, Advance(id, FINE));
    var w2 := Step(w1, Advance(id, FINE));
    LeadsUnderStep(s0, rule, w2, Deliver(realm, key));
    v := Step(w2, Deliver(realm, key));
  }

  /** A realm can lose a session it holds, without any call of its own but such as are
      answered at once, if and only if the session is published or about to be. */
  lemma SessionCanEnd(w: World, realm: RealmId, key: Key)
    requires Reachable(w) && Settled(w, realm, key)
    ensures (exists v :: LeadsUnder(w, Undisturbed(realm), v) && MemoryOf(v, realm).stamper != Some(key))
       <==> Names(w, key) || exists id :: PublishesNext(w, id, key)
  {
    ReachableInv(w);
    MemoryOfOk(w, realm);
    var rule := Undisturbed(realm);
    LeadsUnderNowhere(w, rule);
    if Names(w, key) {
      var v := SnapshotIsRemoved(w, w, realm, key);
    } else if id :| PublishesNext(w, id, key) {
      var v := SessionIsPublished(w, id, realm, key);
      v := SnapshotIsRemoved(w, v, realm, key);
    } else {
      assert Unpublished(w, key);
      forall v | LeadsUnder(w, rule, v)
        ensures MemoryOf(v, realm).stamper == Some(key)
      {
        var actions :| Obeys(w, rule, actions) && Run(w, actions) == v;
        HeldSessionLasts(w, realm, key, actions);
        NeverRemoved(w, actions, key);
        assert !Told(w, realm, key, actions);
      }
    }
  }

  lemma SessionIsPublished(w: World, id: CallId, realm: RealmId, key: Key) returns (v: World)
    requires PublishesNext(w, id, key)
    ensures LeadsUnder(w, Undisturbed(realm), v) && Names(v, key) && MemoryOf(v, realm) == MemoryOf(w, realm)
  {
    LeadsUnderNowhere(w, Undisturbed(realm));
    LeadsUnderStep(w, Undisturbed(realm), w, Advance(id, FINE));
    v := Step(w, Advance(id, FINE));
  }

  // ----- A stale read can end a live session

  /** It happens to a session that is live, without any `close()`: realm 1 reads the expired session of realm 0,
      realm 2 opens a new one, and realm 1 removes that. */
  lemma LiveSessionDropped() returns (w: World, v: World)
    ensures Reachable(w) && v == Step(Step(w, Advance(1, FINE)), Deliver(2, 1)) && Reachable(v)
    ensures w.calls.Keys == {0, 1, 2} && w.calls[0].Open? && w.calls[1].Ensure? && w.calls[2].Open?
    ensures ClientFor(MemoryOf(w, 2), Some("a"), w.now) == Some(1)
    ensures v.now == w.now && ClientFor(MemoryOf(v, 2), Some("a"), v.now) == None
  {
    StartIsReachable();
    hide Reachable, Leads, Run, AdvanceOpen, AdvanceEnsure, ClientFor;
    assert ClampTtl(Finite(600.0)) == 600;
    var w1 := UndisturbedOpenServes(START, 0, 0, "a", Finite(600.0));
    assert MemoryOf(w1, 1) == EMPTY && MemoryOf(w1, 2) == EMPTY;
    ReachableStep(w1, Tick(600_000));
    var w2 := Step(w1, Tick(600_000));
    var w5 := ExpiredIsDiscarding(w2, 1, 1, Snapshot("a", 600_000, 0));
    w := UndisturbedOpenServes(w5, 2, 2, "a", Finite(600.0));
    ServedIsHeld(MemoryOf(w, 2), Some("a"), w.now);
    v := DiscardRuns(w, 1, 2, 1);
    ServedIsHeld(MemoryOf(v, 2), Some("a"), v.now);
  }

  lemma DiscardRuns(w: World, id: CallId, realm: RealmId, key: Key) returns (v: World)
    requires Reachable(w) && id in w.calls && w.calls[id].Ensure? && w.calls[id].ensure == Discarding
    requires MemoryOf(w, realm).stamper == Some(key) && w.snapshot.Some? && w.snapshot.value.publicKey == key
    ensures Reachable(v) && v == Step(Step(w, Advance(id, FINE)), Deliver(realm, key))
    ensures MemoryOf(v, realm).stamper == None && v.now == w.now
  {
    hide Reachable, AdvanceOpen;
    ReachableStep(w, Advance(id, FINE));
    var w1 := Step(w, Advance(id, FINE));
    ReachableStep(w1, Deliver(realm, key));
    v := Step(w1, Deliver(realm, key));
  }

  lemma ServedIsHeld(m: Memory, account: Option<AccountId>, now: int)
    ensures ClientFor(m, account, now).Some? ==> ClientFor(m, account, now) == m.stamper
  {}

  /** An `ensureClient` that reads an expired snapshot is about to discard. */
  lemma ExpiredIsDiscarding(w: World, id: CallId, realm: RealmId, s: Snapshot) returns (v: World)
    requires Reachable(w) && id !in w.calls && Idle(MemoryOf(w, realm))
    requires w.snapshot == Some(s) && !Live(s.expiresAt, w.now)
    ensures Reachable(v)
    ensures v == w.(realms := w.realms[realm := MemoryOf(w, realm).(pendingEnsure := Some(id))],
                    calls := w.calls[id := Ensure(realm, s.accountId, Discarding)])
  {
    hide Reachable, Run, AdvanceOpen;
    ReachableStep(w, StartEnsure(id, realm, s.accountId));
    var w1 := Step(w, StartEnsure(id, realm, s.accountId));
    assert w1 == w.(realms := w.realms[realm := MemoryOf(w, realm).(pendingEnsure := Some(id))],
                    calls := w.calls[id := Ensure(realm, s.accountId, Reading)]);
    ReachableStep(w1, Advance(id, FINE));
    var w2 := Step(w1, Advance(id, FINE));
    assert w2.calls == w.calls[id := Ensure(realm, s.accountId, Read(Some(s)))];
    ReachableStep(w2, Advance(id, FINE));
    v := Step(w2, Advance(id, FINE));
    assert v.calls == w.calls[id := Ensure(realm, s.accountId, Discarding)];
    assert v.realms == w1.realms;
  }
}
