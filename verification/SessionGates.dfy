/** What a realm's two gates, `pendingOpen` and `pendingEnsure`, do for their callers. */
module SessionGates {
  import opened Options
  import opened SessionMemory
  import opened SessionProtocol
  import opened SessionRuns

  // ----- At most one `open` at a time

  /** The `open` has passed the gate and not yet left it. */
  predicate Inside(open: OpenPhase) {
    open.Initialising? || open.Resetting? || open.Registering? || open.Registered? || open.Rejecting? || open.Rejected?
    || open.Writing? || open.Written?
  }

  predicate PastGate(w: World, realm: RealmId, id: CallId) {
    id in w.calls && w.calls[id].Open? && w.calls[id].realm == realm && Inside(w.calls[id].open)
  }

  /** The `open` first closes another account's session; it does not look at the gate again. */
  predicate ClosingFirst(w: World, realm: RealmId, id: CallId) {
    id in w.calls && w.calls[id].Open? && w.calls[id].realm == realm
    && (w.calls[id].open.RemovingSnapshot? || w.calls[id].open.ClearingKey? || w.calls[id].open.KeyCleared?)
  }

  ghost predicate TwoOpens(w: World, realm: RealmId) {
    exists p, q :: p != q && PastGate(w, realm, p) && PastGate(w, realm, q)
  }

  /** The gate names the only `open` of the realm past it, and none is closing first. */
  ghost predicate Guarded(w: World, realm: RealmId) {
    forall id: CallId :: !ClosingFirst(w, realm, id)
      && (PastGate(w, realm, id) ==> MemoryOf(w, realm).pendingOpen == Some(id))
  }

  /** The action starts an `open` of the realm that has to close another account's session. */
  predicate BeginsByClosing(w: World, realm: RealmId, a: Action) {
    a.StartOpen? && a.realm == realm && a.id !in w.calls
    && BeginOpen(MemoryOf(w, realm), a.id, a.account, w.now).1.RemovingSnapshot?
  }

  function NoClosingFirst(realm: RealmId): Rule {
    (w: World, a: Action) => !BeginsByClosing(w, realm, a)
  }

  /** What answering an `open` does to its phase and to its realm's gate. */
  ghost predicate MovesAtGate(w: World, c: Call, id: CallId, v: World)
    requires c.Open?
  {
    && id in v.calls && v.calls[id].Open? && v.calls[id].realm == c.realm
    && (Inside(v.calls[id].open) <==> c.open.KeyCleared? || (Inside(c.open) && !c.open.Rejected? && !c.open.Written?))
    && (ClosingFirst(v, c.realm, id) ==> c.open.RemovingSnapshot? || c.open.ClearingKey?)
    && MemoryOf(v, c.realm).pendingOpen ==
         if c.open.KeyCleared? then Some(id)
         else if c.open.Rejected? || c.open.Written? then None else MemoryOf(w, c.realm).pendingOpen
  }

  lemma OpenAtGate(w: World, id: CallId, o: Outcome)
    requires id in w.calls && w.calls[id].Open?
    ensures MovesAtGate(w, w.calls[id], id, AdvanceOpen(w, id, w.calls[id], o))
  {
    if Resumes(w.calls[id].open) {
      ResumesAtGate(w, id, o);
    } else {
      WaitsAtGate(w, id, o);
    }
    hide AdvanceOpen, MovesAtGate;
  }

  lemma ResumesAtGate(w: World, id: CallId, o: Outcome)
    requires id in w.calls && w.calls[id].Open? && Resumes(w.calls[id].open)
    ensures MovesAtGate(w, w.calls[id], id, AdvanceOpen(w, id, w.calls[id], o))
  {
    hide OpenAt, InitStamper, Mint, RemoveSnapshot;
    match w.calls[id].open
    case KeyCleared =>
    case Rejected =>
    case Registered(_) =>
    case Written(_) =>
  }

  lemma WaitsAtGate(w: World, id: CallId, o: Outcome)
    requires id in w.calls && w.calls[id].Open? && !Resumes(w.calls[id].open)
    ensures MovesAtGate(w, w.calls[id], id, AdvanceOpen(w, id, w.calls[id], o))
  {
    EffectsKeep(w, id, o.generates);
    hide SetOpen, InitStamper, Mint, RemoveSnapshot;
    match w.calls[id].open
    case RemovingSnapshot =>
    case ClearingKey =>
    case Initialising =>
    case Resetting =>
    case Registering(_) =>
    case Rejecting(_) =>
    case Writing(_, _) =>
    case _ =>
  }

  lemma EnsureAtGate(w: World, id: CallId, o: Outcome)
    requires id in w.calls && w.calls[id].Ensure?
    ensures var c := w.calls[id];
            MemoryOf(AdvanceEnsure(w, id, c, o), c.realm).pendingOpen == MemoryOf(w, c.realm).pendingOpen
  {
    EffectsKeep(w, id, o.generates);
    hide InitStamper, RemoveSnapshot;
    match w.calls[id].ensure
    case Reading => hide SetEnsure;
    case Read(_) => hide EnsureAt;
    case Adopting(_) => hide SetEnsure;
    case Adopted(_, _) => hide EnsureAt;
    case Discarding => hide SetEnsure;
    case Discarded => hide EnsureAt;
    case _ =>
  }

  /** The gate and the calls past it, after one step. */
  lemma GateAfter(w: World, realm: RealmId, a: Action)
    requires a.Advance? && a.id in w.calls
    ensures var c := w.calls[a.id]; var v := Step(w, a);
      && (c.Open? && c.realm == realm ==> v == AdvanceOpen(w, a.id, c, a.outcome))
      && (!(c.Open? && c.realm == realm) ==>
            MemoryOf(v, realm).pendingOpen == MemoryOf(w, realm).pendingOpen
            && !PastGate(v, realm, a.id) && !ClosingFirst(v, realm, a.id))
  {
    AnsweredGoesOn(w, a.id, a.outcome);
    var c := w.calls[a.id];
    if c.Ensure? {
      EnsureAtGate(w, a.id, a.outcome);
    } else if !c.Open? {
      OwnCloseHoldsNothing(w, a.id, a.outcome);
    }
    hide AdvanceOpen, AdvanceEnsure, RemoveSnapshot;
  }

  lemma OtherActionsAtGate(w: World, realm: RealmId, a: Action)
    requires !a.Advance?
    ensures var v := Step(w, a);
      && (forall id :: id in w.calls ==> id in v.calls && v.calls[id] == w.calls[id])
      && (forall id :: id in v.calls && id !in w.calls && v.calls[id].Open? && v.calls[id].realm == realm ==>
            && a.StartOpen? && a.id == id && a.realm == realm
            && v.calls[id].open == BeginOpen(MemoryOf(w, realm), id, a.account, w.now).1)
      && MemoryOf(v, realm).pendingOpen ==
           if a.StartOpen? && a.realm == realm && a.id !in w.calls
           then BeginOpen(MemoryOf(w, realm), a.id, a.account, w.now).0.pendingOpen
           else MemoryOf(w, realm).pendingOpen
  {
    hide AdvanceOpen, AdvanceEnsure, BeginOpen;
  }

  /** The gate, once it names the only call past it, goes on doing so until an `open` has to
      close another account's session first. */
  lemma GuardStays(w: World, realm: RealmId, a: Action)
    requires Guarded(w, realm) && !BeginsByClosing(w, realm, a)
    ensures Guarded(Step(w, a), realm)
  {
    var v := Step(w, a);
    assert a.Advance? && a.id !in w.calls ==> v == w;
    if a.Advance? && a.id in w.calls {
      assert !ClosingFirst(w, realm, a.id);
      GateAfter(w, realm, a);
      AnsweredGoesOn(w, a.id, a.outcome);
      if w.calls[a.id].Open? && w.calls[a.id].realm == realm {
        OpenAtGate(w, a.id, a.outcome);
      }
      hide Step, AdvanceOpen;
    } else if !a.Advance? {
      OtherActionsAtGate(w, realm, a);
      hide Step;
    }
    forall id: CallId
      ensures !ClosingFirst(v, realm, id) && (PastGate(v, realm, id) ==> MemoryOf(v, realm).pendingOpen == Some(id))
    {
      assert !ClosingFirst(w, realm, id) && (PastGate(w, realm, id) ==> MemoryOf(w, realm).pendingOpen == Some(id));
    }
  }

  lemma {:induction false} RunStaysGuarded(w: World, realm: RealmId, actions: seq<Action>)
    requires Guarded(w, realm) && Obeys(w, NoClosingFirst(realm), actions)
    ensures Guarded(Run(w, actions), realm)
  {
    if actions != [] {
      var before, last := actions[..|actions| - 1], actions[|actions| - 1];
      assert actions == before + [last];
      ObeysLonger(w, NoClosingFirst(realm), before, last);
      RunStaysGuarded(w, realm, before);
      GuardStays(Run(w, before), realm, last);
    }
  }

  /** Whatever the gate names is past it. */
  ghost predicate NamesInside(w: World, realm: RealmId) {
    MemoryOf(w, realm).pendingOpen.Some? ==> PastGate(w, realm, MemoryOf(w, realm).pendingOpen.value)
  }

  lemma NamesInsideStays(w: World, realm: RealmId, a: Action)
    requires NamesInside(w, realm)
    ensures NamesInside(Step(w, a), realm)
  {
    assert a.Advance? && a.id !in w.calls ==> Step(w, a) == w;
    if a.Advance? && a.id in w.calls {
      GateAfter(w, realm, a);
      AnsweredGoesOn(w, a.id, a.outcome);
      if w.calls[a.id].Open? && w.calls[a.id].realm == realm {
        OpenAtGate(w, a.id, a.outcome);
      }
      hide Step, AdvanceOpen;
    } else if !a.Advance? {
      OtherActionsAtGate(w, realm, a);
      hide AdvanceOpen, AdvanceEnsure;
    }
  }

  lemma {:induction false} RunNamesInside(realm: RealmId, actions: seq<Action>)
    ensures NamesInside(Run(START, actions), realm)
  {
    hide Step, NamesInside;
    if actions != [] {
      RunNamesInside(realm, actions[..|actions| - 1]);
      NamesInsideStays(Run(START, actions[..|actions| - 1]), realm, actions[|actions| - 1]);
    } else {
      NamesInsideStart(realm);
    }
  }

  lemma NamesInsideStart(realm: RealmId)
    ensures NamesInside(START, realm)
  {}

  lemma Waits(s0: World, realm: RealmId, w: World, id: CallId) returns (v: World)
    requires LeadsUnder(s0, NoClosingFirst(realm), w) && id in w.calls && w.calls[id].Open?
    ensures LeadsUnder(s0, NoClosingFirst(realm), v) && v == AdvanceOpen(w, id, w.calls[id], FINE)
  {
    hide LeadsUnder, AdvanceOpen, AdvanceEnsure, BeginOpen, BeginEnsure;
    LeadsUnderStep(s0, NoClosingFirst(realm), w, Advance(id, FINE));
    v := Step(w, Advance(id, FINE));
  }

  /** An `open` that closed a session first passes the gate whatever the gate names. */
  lemma {:induction false} PassesGate(s0: World, w: World, realm: RealmId, id: CallId) returns (v: World)
    requires LeadsUnder(s0, NoClosingFirst(realm), w) && ClosingFirst(w, realm, id)
    ensures LeadsUnder(s0, NoClosingFirst(realm), v) && PastGate(v, realm, id)
    ensures v.calls == w.calls[id := v.calls[id]]
    decreases if id in w.calls && w.calls[id].Open? then Rank(w.calls[id].open) else 0
  {
    hide LeadsUnder;
    v := Waits(s0, realm, w, id);
    if !w.calls[id].open.KeyCleared? {
      var v1 := v;
      v := PassesGate(s0, v1, realm, id);
    }
  }

  /** With nothing behind the gate, an `open` of the same account passes it once the
      session the realm holds has run out. */
  lemma AnotherPasses(s0: World, w: World, realm: RealmId) returns (v: World, id: CallId)
    requires LeadsUnder(s0, NoClosingFirst(realm), w) && Inv(w) && MemoryOf(w, realm).pendingOpen == None
    ensures LeadsUnder(s0, NoClosingFirst(realm), v) && id !in w.calls && PastGate(v, realm, id)
    ensures v.calls == w.calls[id := v.calls[id]] && MemoryOf(v, realm).pendingOpen == Some(id)
  {
    MemoryOfOk(w, realm);
    hide LeadsUnder, Inv, ClampTtl;
    var m := MemoryOf(w, realm);
    id := FreshNat(w.calls.Keys);
    var ms: nat := if m.expiresAt > w.now then m.expiresAt - w.now else 0;
    var account := if m.currentAccountId.Some? then m.currentAccountId.value else "";
    LeadsUnderStep(s0, NoClosingFirst(realm), w, Tick(ms));
    var w1 := Step(w, Tick(ms));
    assert w1 == w.(now := w.now + ms);
    BeginsAtOnce(m, id, account, w1.now);
    hide BeginOpen, Step;
    v := OpenPasses(s0, w1, realm, id, account);
  }

  lemma OpenPasses(s0: World, w: World, realm: RealmId, id: CallId, account: AccountId) returns (v: World)
    requires LeadsUnder(s0, NoClosingFirst(realm), w) && id !in w.calls
    requires BeginOpen(MemoryOf(w, realm), id, account, w.now) == EnterOpen(MemoryOf(w, realm), id)
    ensures LeadsUnder(s0, NoClosingFirst(realm), v) && PastGate(v, realm, id)
    ensures v.calls == w.calls[id := v.calls[id]] && MemoryOf(v, realm).pendingOpen == Some(id)
  {
    hide LeadsUnder, ClampTtl, BeginOpen, BeginEnsure, AdvanceOpen, AdvanceEnsure;
    LeadsUnderStep(s0, NoClosingFirst(realm), w, StartOpen(id, realm, account, Finite(600.0)));
    v := Step(w, StartOpen(id, realm, account, Finite(600.0)));
  }

  lemma BeginsAtOnce(m: Memory, id: CallId, account: AccountId, now: int)
    requires m.pendingOpen == None && m.expiresAt <= now
             && (m.currentAccountId.Some? ==> m.currentAccountId.value == account)
    ensures BeginOpen(m, id, account, now) == EnterOpen(m, id)
  {}

  lemma Unguarded(s0: World, w: World, realm: RealmId, id: CallId) returns (v: World)
    requires LeadsUnder(s0, NoClosingFirst(realm), w) && MemoryOf(w, realm).pendingOpen.Some? && NamesInside(w, realm)
    requires ClosingFirst(w, realm, id) || (PastGate(w, realm, id) && MemoryOf(w, realm).pendingOpen != Some(id))
    ensures LeadsUnder(s0, NoClosingFirst(realm), v) && TwoOpens(v, realm)
  {
    hide LeadsUnder, Inv;
    var p := MemoryOf(w, realm).pendingOpen.value;
    v := w;
    if ClosingFirst(w, realm, id) {
      v := PassesGate(s0, w, realm, id);
    }
    assert p != id && PastGate(v, realm, p) && PastGate(v, realm, id);
  }

  /** From any reachable state, two `open`s of a realm can come to be past the gate at once,
      without a further one that begins by closing another account's session, if and only if
      the gate is broken already: by one that did begin so and has yet to pass, or by one
      that is past the gate and not named by it. */
  lemma OneOpenAtATime(w: World, realm: RealmId)
    requires Reachable(w)
    ensures (exists v :: LeadsUnder(w, NoClosingFirst(realm), v) && TwoOpens(v, realm)) <==> !Guarded(w, realm)
  {
    if Guarded(w, realm) {
      hide Guarded, TwoOpens;
      forall v | LeadsUnder(w, NoClosingFirst(realm), v)
        ensures !TwoOpens(v, realm)
      {
        var actions :| Obeys(w, NoClosingFirst(realm), actions) && Run(w, actions) == v;
        RunStaysGuarded(w, realm, actions);
        GuardedHasOne(v, realm);
      }
    } else {
      hide Reachable;
      var v := BrokenGateLetsTwo(w, realm);
    }
  }

  lemma GuardedHasOne(w: World, realm: RealmId)
    requires Guarded(w, realm)
    ensures !TwoOpens(w, realm)
  {
    hide PastGate, ClosingFirst;
  }

  lemma BrokenGateLetsTwo(w: World, realm: RealmId) returns (v: World)
    requires Reachable(w) && !Guarded(w, realm)
    ensures LeadsUnder(w, NoClosingFirst(realm), v) && TwoOpens(v, realm)
  {
    ReachableInv(w);
    var actions :| Run(START, actions) == w;
    RunNamesInside(realm, actions);
    LeadsUnderNowhere(w, NoClosingFirst(realm));
    var id: CallId :|
      ClosingFirst(w, realm, id) || (PastGate(w, realm, id) && MemoryOf(w, realm).pendingOpen != Some(id));
    hide Inv, Run, LeadsUnder, TwoOpens, Reachable;
    v := w;
    if MemoryOf(w, realm).pendingOpen == None {
      var p;
      v, p := AnotherPasses(w, w, realm);
      assert id in w.calls && v.calls[id] == w.calls[id];
    }
    v := Unguarded(w, v, realm, id);
  }

  /** So while no `open` of a realm has to close another account's session first, at most
      one of the realm's is past the gate, in every run. */
  lemma GateKeepsOne(realm: RealmId, actions: seq<Action>)
    requires Obeys(START, NoClosingFirst(realm), actions)
    ensures !TwoOpens(Run(START, actions), realm)
  {
    RunStaysGuarded(START, realm, actions);
    GuardedHasOne(Run(START, actions), realm);
  }

  /** One await of an `open`, in a run from the start. */
  lemma Answered(w: World, id: CallId) returns (v: World)
    requires Reachable(w) && id in w.calls && w.calls[id].Open?
    ensures Reachable(v) && v == AdvanceOpen(w, id, w.calls[id], FINE)
  {
    hide Reachable, AdvanceOpen, AdvanceEnsure;
    ReachableStep(w, Advance(id, FINE));
    v := Step(w, Advance(id, FINE));
  }

  /** Two `open`s of one account that begin by closing another's: the second finds nothing
      left to close and passes the gate first, the first one passes it as well, and each
      registers a key. */
  lemma TwoOpensRegister() returns (w: World)
    ensures Reachable(w) && w.calls.Keys == {0, 1, 2}
    ensures w.calls[1] == Open(0, "b", 600, Registering(2)) && w.calls[2] == Open(0, "b", 600, Registering(1))
    ensures TwoOpens(w, 0)
  {
    hide Reachable, Leads;
    StartIsReachable();
    LeadsNowhere(START, None);
    assert ClampTtl(Finite(600.0)) == 600;
    var w0 := OpenRuns(START, None, START, 0, 0, "a", Finite(600.0));
    LeadsStaysReachable(START, None, w0);
    var w2 := BothBegin(w0);
    var w3 := SecondRegisters(w2);
    w := FirstRegisters(w3);
    assert PastGate(w, 0, 1) && PastGate(w, 0, 2);
  }

  lemma BothBegin(w: World) returns (v: World)
    requires Reachable(w) && w.calls.Keys == {0} && MemoryOf(w, 0) == Hold(EMPTY, 0, "a", 600_000)
    ensures Reachable(v)
    ensures v == w.(realms := w.realms[0 := EMPTY.(pendingOpen := Some(2))],
                    calls := w.calls[1 := Open(0, "b", 600, RemovingSnapshot)][2 := Open(0, "b", 600, Initialising)])
  {
    hide Reachable, AdvanceOpen, AdvanceEnsure, BeginEnsure;
    assert ClampTtl(Finite(600.0)) == 600;
    ReachableStep(w, StartOpen(1, 0, "b", Finite(600.0)));
    var u := Step(w, StartOpen(1, 0, "b", Finite(600.0)));
    assert u == w.(realms := w.realms[0 := EMPTY], calls := w.calls[1 := Open(0, "b", 600, RemovingSnapshot)]);
    ReachableStep(u, StartOpen(2, 0, "b", Finite(600.0)));
    v := Step(u, StartOpen(2, 0, "b", Finite(600.0)));
    assert v.realms == w.realms[0 := EMPTY.(pendingOpen := Some(2))];
  }

  lemma SecondRegisters(w: World) returns (v: World)
    requires Reachable(w) && w.nextKey == 1 && w.disk.Some?
    requires 2 in w.calls && w.calls[2] == Open(0, "b", 600, Initialising)
    ensures Reachable(v) && v.nextKey == 2 && v.realms == w.realms
            && v.calls == w.calls[2 := Open(0, "b", 600, Registering(1))]
  {
    hide Reachable;
    v := Answered(w, 2);
    v := Answered(v, 2);
    assert v.calls == w.calls[2 := Open(0, "b", 600, Registering(1))];
  }

  lemma FirstRegisters(w: World) returns (v: World)
    requires Reachable(w) && w.nextKey == 2 && 0 in w.realms
    requires 1 in w.calls && w.calls[1] == Open(0, "b", 600, RemovingSnapshot)
    ensures Reachable(v) && v.calls == w.calls[1 := Open(0, "b", 600, Registering(2))]
  {
    hide Reachable;
    v := Answered(w, 1);
    v := Answered(v, 1);
    assert v.disk == None && v.nextKey == 2 && v.calls == w.calls[1 := Open(0, "b", 600, KeyCleared)];
    v := Answered(v, 1);
    v := Answered(v, 1);
    v := Answered(v, 1);
    assert v.calls == w.calls[1 := Open(0, "b", 600, Registering(2))];
  }

  // ----- What `ensureClient` answers, the empty account id included

  /** The call reads the snapshot itself, and what it has returned is its account's key. */
  ghost predicate AnswersOwn(w: World, id: CallId, realm: RealmId, account: AccountId) {
    && id in w.calls && w.calls[id].Ensure? && w.calls[id].realm == realm && w.calls[id].account == account
    && !w.calls[id].ensure.EnsureJoined?
    && (w.calls[id].ensure.Ensured? && w.calls[id].ensure.result.Some? ==>
          var key := w.calls[id].ensure.result.value; key in w.sessions && w.sessions[key].accountId == account)
  }

  lemma AnswersOwnStays(w: World, id: CallId, realm: RealmId, account: AccountId, a: Action)
    requires Inv(w) && AnswersOwn(w, id, realm, account)
    ensures AnswersOwn(Step(w, a), id, realm, account)
  {
    SessionsStay(w, a);
    if a.Advance? && a.id == id {
      assert CallOk(w, id);
      assert Step(w, a) == AdvanceEnsure(w, id, w.calls[id], a.outcome);
      hide Inv, Step, AnswersOwn;
      NextAnswersOwn(w, id, realm, account, a.outcome);
    } else {
      StepShape(w, a);
      hide Inv, Step;
    }
  }

  lemma NextAnswersOwn(w: World, id: CallId, realm: RealmId, account: AccountId, o: Outcome)
    requires AnswersOwn(w, id, realm, account) && EnsureOk(w, w.calls[id])
    ensures AnswersOwn(AdvanceEnsure(w, id, w.calls[id], o), id, realm, account)
  {
    hide MemoryOf, InitStamper, RemoveSnapshot;
    match w.calls[id].ensure
    case Reading => hide SetEnsure;
    case Read(_) => hide EnsureAt;
    case Adopting(_) => hide SetEnsure;
    case Adopted(_, _) => hide EnsureAt;
    case Discarding => hide SetEnsure;
    case Discarded => hide EnsureAt;
    case _ =>
  }

  lemma {:induction false} RunAnswersOwn(w: World, id: CallId, realm: RealmId, account: AccountId, actions: seq<Action>)
    requires Inv(w) && AnswersOwn(w, id, realm, account)
    ensures AnswersOwn(Run(w, actions), id, realm, account)
  {
    hide Inv, Step, AnswersOwn;
    if actions != [] {
      var before := actions[..|actions| - 1];
      RunAnswersOwn(w, id, realm, account, before);
      RunKeepsInv(w, before);
      AnswersOwnStays(Run(w, before), id, realm, account, actions[|actions| - 1]);
    }
  }

  /** A call that is answered, or has joined another, stays as it is. */
  lemma {:induction false} RunSettledEnsure(w: World, id: CallId, actions: seq<Action>)
    requires id in w.calls && w.calls[id].Ensure? && (w.calls[id].ensure.Ensured? || w.calls[id].ensure.EnsureJoined?)
    ensures id in Run(w, actions).calls && Run(w, actions).calls[id] == w.calls[id]
  {
    if actions != [] {
      var before, last := actions[..|actions| - 1], actions[|actions| - 1];
      RunSettledEnsure(w, id, before);
      StepShape(Run(w, before), last);
      if last.Advance? && last.id == id {
        assert Step(Run(w, before), last) == Run(w, before);
      }
      hide Step;
    }
  }

  lemma {:induction false} RunSessionsStay(w: World, key: Key, actions: seq<Action>)
    requires Inv(w) && key in w.sessions
    ensures key in Run(w, actions).sessions && Run(w, actions).sessions[key] == w.sessions[key]
  {
    hide Inv, Step;
    if actions != [] {
      var before := actions[..|actions| - 1];
      RunSessionsStay(w, key, before);
      RunKeepsInv(w, before);
      SessionsStay(Run(w, before), actions[|actions| - 1]);
    }
  }

  lemma RecordedIsServed(w: World, key: Key)
    requires Inv(w) && key in w.sessions
    ensures ServedTo(w, key, w.sessions[key].accountId)
  {
    assert SessionOk(w, key);
  }

  /** What `ensureClient(account)` returns in the end, for any account id.  Served from
      memory it is the key the realm holds: for the empty id whatever account that is for,
      for any other id its own account's.  A call that joins another returns what that one
      does, and one that reads the snapshot itself returns a key of exactly the account it
      was given, the empty one included. */
  lemma EnsureAnswers(w: World, id: CallId, realm: RealmId, account: AccountId, actions: seq<Action>)
    requires Reachable(w) && id !in w.calls
    ensures var m := MemoryOf(w, realm); var u := Run(Step(w, StartEnsure(id, realm, account)), actions);
      && id in u.calls && u.calls[id].Ensure?
      && if ClientFor(m, Some(account), w.now).Some? then
           && m.currentAccountId.Some? && (account != "" ==> m.currentAccountId == Some(account))
           && ResultOf(u, id) == m.stamper && ServedTo(u, m.stamper.value, m.currentAccountId.value)
         else if m.pendingEnsure.Some? then
           Owner(u, id) == m.pendingEnsure.value && Owner(u, id) in u.calls
           && ResultOf(u, id) == ResultOf(u, Owner(u, id))
         else ResultOf(u, id).Some? ==> ServedTo(u, ResultOf(u, id).value, account)
  {
    ReachableInv(w);
    MemoryOfOk(w, realm);
    var m, v := MemoryOf(w, realm), Step(w, StartEnsure(id, realm, account));
    StepKeepsInv(w, StartEnsure(id, realm, account));
    RunKeepsInv(v, actions);
    var u := Run(v, actions);
    assert v == SetEnsure(w, id, Ensure(realm, account, Reading), BeginEnsure(m, id, account, w.now));
    hide Step, Run, Reachable;
    if ClientFor(m, Some(account), w.now).Some? {
      RunSettledEnsure(v, id, actions);
      RunSessionsStay(v, m.stamper.value, actions);
      RecordedIsServed(u, m.stamper.value);
      hide Inv;
    } else if m.pendingEnsure.Some? {
      RunSettledEnsure(v, id, actions);
      assert CallOk(u, id);
      hide Inv;
    } else {
      assert AnswersOwn(v, id, realm, account);
      RunAnswersOwn(v, id, realm, account, actions);
      if ResultOf(u, id).Some? {
        RecordedIsServed(u, ResultOf(u, id).value);
      }
      hide Inv;
    }
  }
}
