/** The pending-request store under concurrent handlers: when it holds what its
    operations mean, and what an operation loses when it does not. */
module RequestStore {
  import opened Options
  import opened RequestParts
  import opened DappRequests

  // ----- One write

  /** The handler waits for the write of a map it read before. */
  predicate Writing(c: Handler) {
    c.SetWrites? || c.ApproveWrites? || c.RejectWrites?
  }

  /** The request its operation is about. */
  function OwnId(c: Handler): RequestId
    requires Writing(c)
  {
    match c
    case SetWrites(req, _) => req.id
    case ApproveWrites(seen, _, _) => seen.id
    case RejectWrites(id, _, _, _) => id
  }

  predicate IsWrite(w: World, a: Action) {
    a.Advance? && a.handler in w.handlers && Writing(w.handlers[a.handler])
  }

  /** The step sets, or takes back, request `id`. */
  predicate Sets(w: World, a: Action, id: RequestId) {
    IsWrite(w, a) && w.handlers[a.handler].SetWrites? && OwnId(w.handlers[a.handler]) == id
  }

  predicate TakesBack(w: World, a: Action, id: RequestId) {
    a.ClearStore? || (IsWrite(w, a) && !w.handlers[a.handler].SetWrites? && OwnId(w.handlers[a.handler]) == id)
  }

  /** What the step means for the store, whatever map it read. */
  function Meant(w: World, a: Action, stored: Stored): Stored {
    if a.ClearStore? then map[]
    else if !IsWrite(w, a) then stored
    else
      match w.handlers[a.handler]
      case SetWrites(req, _) => stored[req.id := req]
      case c => stored - {OwnId(c)}
  }

  ghost predicate AgreeBut(s: Stored, t: Stored, own: RequestId) {
    forall id :: id != own ==> (id in s <==> id in t) && (id in s && id in t ==> s[id] == t[id])
  }

  /** If the step is a write, the map it read is still the stored one, its own request
      aside. */
  ghost predicate Current(w: World, a: Action) {
    IsWrite(w, a) ==> AgreeBut(w.handlers[a.handler].all, w.stored, OwnId(w.handlers[a.handler]))
  }

  lemma OthersUnwritten(w: World, a: Action)
    requires !IsWrite(w, a)
    ensures Step(w, a).stored == Meant(w, a, w.stored)
  {}

  lemma WrittenMap(w: World, a: Action)
    requires IsWrite(w, a)
    ensures var c := w.handlers[a.handler];
            Step(w, a).stored == if c.SetWrites? then c.all[OwnId(c) := c.req] else c.all - {OwnId(c)}
  {}

  /** A step does to the store what it means exactly when the map it writes back is
      current. */
  lemma WriteIsMeant(w: World, a: Action)
    ensures Step(w, a).stored == Meant(w, a, w.stored) <==> Current(w, a)
  {
    if !IsWrite(w, a) {
      OthersUnwritten(w, a);
    } else {
      WrittenMap(w, a);
      hide Step;
      var c := w.handlers[a.handler];
      var own, after, meant := OwnId(c), Step(w, a).stored, Meant(w, a, w.stored);
      assert forall id :: id != own ==> (id in after <==> id in c.all) && (id in meant <==> id in w.stored);
      assert forall id :: id != own && id in after ==> after[id] == c.all[id];
      assert forall id :: id != own && id in meant ==> meant[id] == w.stored[id];
      if Current(w, a) {
        assert after == meant;
      }
    }
  }

  // ----- Between a read and its write

  /** The handler waits for the read that a write will follow. */
  predicate Reading(c: Handler) {
    c.SetReads? || c.ApproveReads? || c.RejectReads?
  }

  lemma ReadsStored(w: World, h: HandlerId)
    requires h in w.handlers && Reading(w.handlers[h])
    ensures var v := Step(w, Advance(h));
            h in v.handlers && Writing(v.handlers[h]) && v.handlers[h].all == w.stored && v.stored == w.stored
  {}

  lemma HandlerWaitsStep(w: World, h: HandlerId, a: Action)
    requires h in w.handlers && a != Advance(h)
    ensures h in Step(w, a).handlers && Step(w, a).handlers[h] == w.handlers[h]
  {
    if a.Advance? && a.handler in w.handlers {
      AdvanceMoves(w, a.handler, w.handlers[a.handler]);
      hide AdvanceHandler;
    }
  }

  /** Handler `k` may have moved on; no other has. */
  ghost predicate OneMoves(w: World, k: HandlerId, v: World) {
    k in v.handlers && v.handlers == w.handlers[k := v.handlers[k]]
  }

  lemma HandlerAtMoves(w: World, v: World, k: HandlerId, next: Handler)
    requires v.handlers == w.handlers
    ensures OneMoves(w, k, HandlerAt(v, k, next))
  {}

  lemma AdvanceMoves(w: World, k: HandlerId, c: Handler)
    requires k in w.handlers && w.handlers[k] == c
    ensures OneMoves(w, k, AdvanceHandler(w, k, c))
  {
    hide HandlerAt;
    match c
    case OpeningPopup(req) => HandlerAtMoves(w, w, k, SetReads(req));
    case SetReads(req) => HandlerAtMoves(w, w, k, SetWrites(req, w.stored));
    case SetWrites(req, all) =>
      HandlerAtMoves(w, w.(stored := all[req.id := req], stages := w.stages[req.id := Replied]), k, Finished);
    case ApproveGets(id, asConnect, data) =>
      HandlerAtMoves(w, w, k, Finished);
      if id in w.stored {
        var seen := w.stored[id];
        var v := w.(approvals := w.approvals + {Approval(seen.id, seen.sourceTab, data, asConnect)});
        HandlerAtMoves(w, v, k, if asConnect then ConnectingSite(seen, data) else ApproveReads(seen, data));
      }
    case ConnectingSite(seen, data) => HandlerAtMoves(w, w, k, ApproveReads(seen, data));
    case ApproveReads(seen, data) => HandlerAtMoves(w, w, k, ApproveWrites(seen, data, w.stored));
    case ApproveWrites(seen, data, all) =>
      HandlerAtMoves(w, Send(w.(stored := all - {seen.id}), seen.sourceTab, seen.id, Success(data)), k, Finished);
    case RejectGets(id, reason) =>
      HandlerAtMoves(w, w, k, RejectReads(id, if id in w.stored then Some(w.stored[id]) else None, reason));
    case RejectReads(id, found, reason) => HandlerAtMoves(w, w, k, RejectWrites(id, found, reason, w.stored));
    case RejectWrites(id, found, reason, all) =>
      var v := w.(stored := all - {id});
      HandlerAtMoves(w, if found.Some? then Send(v, found.value.sourceTab, id, Failure(reason)) else v, k, Finished);
    case Finished =>
  }

  lemma {:induction false} HandlerWaits(w: World, h: HandlerId, actions: seq<Action>)
    requires h in w.handlers && Advance(h) !in actions
    ensures h in Run(w, actions).handlers && Run(w, actions).handlers[h] == w.handlers[h]
  {
    hide Step;
    if actions != [] {
      var before := actions[..|actions| - 1];
      HandlerWaits(w, h, before);
      HandlerWaitsStep(Run(w, before), h, actions[|actions| - 1]);
    }
  }

  /** An operation that reads the store in `w`, waits while `between` happens and then
      writes: but for its own request the store is back to what it read.  It drops
      exactly what was stored in between and brings back exactly what was removed. */
  lemma WriteRestoresRead(w: World, h: HandlerId, between: seq<Action>)
    requires h in w.handlers && Reading(w.handlers[h]) && Advance(h) !in between
    ensures var u := Run(Step(w, Advance(h)), between); var r := Step(u, Advance(h)).stored;
      && IsWrite(u, Advance(h))
      && var own := OwnId(u.handlers[h]);
         && AgreeBut(r, w.stored, own)
         && (forall id :: id != own ==> (id in u.stored && id !in r <==> id in u.stored && id !in w.stored))
         && (forall id :: id != own ==> (id !in u.stored && id in r <==> id !in u.stored && id in w.stored))
         && (own in r <==> u.handlers[h].SetWrites?)
  {
    ReadsStored(w, h);
    var v := Step(w, Advance(h));
    HandlerWaits(v, h, between);
    WrittenMap(Run(v, between), Advance(h));
    hide Step, Run;
  }

  // ----- Whole runs

  /** What the sets, removals and clears of a run give, in the order of their writes. */
  function Ledger(actions: seq<Action>): Stored {
    if actions == [] then map[]
    else
      var before := actions[..|actions| - 1];
      Meant(Run(START, before), actions[|actions| - 1], Ledger(before))
  }

  ghost predicate CurrentAt(actions: seq<Action>, n: int) {
    0 <= n < |actions| && Current(Run(START, actions[..n]), actions[n])
  }

  ghost predicate AllCurrent(actions: seq<Action>) {
    forall n :: 0 <= n < |actions| ==> CurrentAt(actions, n)
  }

  ghost predicate StoreIsLedger(actions: seq<Action>) {
    Run(START, actions).stored == Ledger(actions)
  }

  ghost predicate SetsAt(actions: seq<Action>, i: int, id: RequestId) {
    0 <= i < |actions| && Sets(Run(START, actions[..i]), actions[i], id)
  }

  ghost predicate TakesBackAt(actions: seq<Action>, i: int, id: RequestId) {
    0 <= i < |actions| && TakesBack(Run(START, actions[..i]), actions[i], id)
  }

  /** What happens at an action does not depend on the actions after it. */
  lemma SamePrefix(before: seq<Action>, last: Action, n: int, id: RequestId)
    requires 0 <= n < |before|
    ensures CurrentAt(before + [last], n) <==> CurrentAt(before, n)
    ensures SetsAt(before + [last], n, id) <==> SetsAt(before, n, id)
    ensures TakesBackAt(before + [last], n, id) <==> TakesBackAt(before, n, id)
  {
    assert (before + [last])[..n] == before[..n] && (before + [last])[n] == before[n];
    hide Run, Current, Sets, TakesBack;
  }

  lemma LastAction(before: seq<Action>, last: Action, id: RequestId)
    ensures var actions := before + [last]; var w := Run(START, before);
      && Run(START, actions) == Step(w, last) && Ledger(actions) == Meant(w, last, Ledger(before))
      && (CurrentAt(actions, |before|) <==> Current(w, last))
      && (SetsAt(actions, |before|, id) <==> Sets(w, last, id))
      && (TakesBackAt(actions, |before|, id) <==> TakesBack(w, last, id))
  {
    var actions := before + [last];
    assert actions[..|before|] == before && actions[..|actions| - 1] == before;
    hide Step, Current, Sets, TakesBack, Meant;
  }

  /** The store is the ledger all along a run if and only if every write of the run is
      current. */
  lemma {:induction false} StoreFollowsLedger(actions: seq<Action>)
    ensures (forall n :: 0 <= n <= |actions| ==> StoreIsLedger(actions[..n])) <==> AllCurrent(actions)
  {
    if actions == [] {
      assert forall n :: 0 <= n <= |actions| ==> actions[..n] == [];
    } else {
      var before, last := actions[..|actions| - 1], actions[|actions| - 1];
      assert actions == before + [last];
      StoreFollowsLedger(before);
      WriteIsMeant(Run(START, before), last);
      LastAction(before, last, 0);
      assert StoreIsLedger(before) ==> (StoreIsLedger(actions) <==> CurrentAt(actions, |before|));
      forall n | 0 <= n < |before|
        ensures CurrentAt(actions, n) <==> CurrentAt(before, n)
      {
        SamePrefix(before, last, n, 0);
      }
      assert forall n :: 0 <= n <= |before| ==> before[..n] == actions[..n];
      assert actions[..|actions|] == actions && before[..|before|] == before;
      hide CurrentAt, StoreIsLedger, Run, Step, Meant, Current;
    }
  }

  /** Request `id` was set at the `i`-th action and not taken back since. */
  ghost predicate KeptSince(actions: seq<Action>, i: int, id: RequestId) {
    SetsAt(actions, i, id) && forall j :: i < j < |actions| ==> !TakesBackAt(actions, j, id)
  }

  lemma MeantMembers(w: World, a: Action, stored: Stored, id: RequestId)
    ensures id in Meant(w, a, stored) <==> Sets(w, a, id) || (id in stored && !TakesBack(w, a, id))
  {}

  lemma KeptLonger(before: seq<Action>, last: Action, i: int, id: RequestId)
    requires 0 <= i < |before|
    ensures KeptSince(before + [last], i, id) <==>
            KeptSince(before, i, id) && !TakesBackAt(before + [last], |before|, id)
  {
    hide SetsAt, TakesBackAt;
    SamePrefix(before, last, i, id);
    forall j | 0 <= j < |before|
      ensures TakesBackAt(before + [last], j, id) <==> TakesBackAt(before, j, id)
    {
      SamePrefix(before, last, j, id);
    }
  }

  /** The ledger holds what was set and not taken back since. */
  lemma {:induction false} LedgerMembers(actions: seq<Action>, id: RequestId)
    ensures id in Ledger(actions) <==> exists i :: KeptSince(actions, i, id)
  {
    if actions != [] {
      var before, last := actions[..|actions| - 1], actions[|actions| - 1];
      assert actions == before + [last];
      LedgerMembers(before, id);
      LastAction(before, last, id);
      MeantMembers(Run(START, before), last, Ledger(before), id);
      forall i
        ensures KeptSince(actions, i, id) ==> 0 <= i < |actions|
        ensures KeptSince(before, i, id) ==> 0 <= i < |before|
      {}
      forall i | 0 <= i < |before|
        ensures KeptSince(actions, i, id) <==> KeptSince(before, i, id) && !TakesBackAt(actions, |before|, id)
      {
        KeptLonger(before, last, i, id);
      }
      assert KeptSince(actions, |before|, id) <==> SetsAt(actions, |before|, id);
      hide KeptSince, SetsAt, TakesBackAt, Run, Step, Meant, Sets, TakesBack, Ledger;
    }
  }

  /** A reply goes out only after its request was set. */
  lemma {:induction false} RepliedWasSet(actions: seq<Action>, id: RequestId)
    requires var w := Run(START, actions); id in w.stages && w.stages[id] != Creating
    ensures exists i :: 0 <= i < |actions| && SetsAt(actions, i, id)
  {
    assert actions != [];
    var before, last := actions[..|actions| - 1], actions[|actions| - 1];
    assert actions == before + [last];
    var w := Run(START, before);
    RunKeepsInv(before);
    LastAction(before, last, id);
    RepliesAfterSet(w, last, id);
    hide SetsAt, Sets, Run, Step, Inv;
    if !Sets(w, last, id) {
      RepliedWasSet(before, id);
      var i :| 0 <= i < |before| && SetsAt(before, i, id);
      SamePrefix(before, last, i, id);
    }
  }

  lemma RepliesAfterSet(w: World, a: Action, id: RequestId)
    requires Inv(w) && id in Step(w, a).stages && Step(w, a).stages[id] != Creating
    ensures Sets(w, a, id) || (id in w.stages && w.stages[id] != Creating)
  {
    match a
    case Advance(h) =>
      if h in w.handlers { AdvanceReplies(w, h, id); }
      hide Inv, AdvanceHandler;
    case DeliverMessage(m, doc) =>
      MessageReplies(w, m, doc);
      hide Inv, Step;
    case _ => hide Inv, AdvanceHandler, HandlerAt;
  }

  lemma MessageReplies(w: World, m: Message, doc: DocId)
    requires Inv(w)
    ensures var v := Step(w, DeliverMessage(m, doc));
            v.stages == w.stages
            || (m.id in w.stages && w.stages[m.id] == Waiting && v.stages == w.stages[m.id := Posted])
  {
    hide Inv, ResponseArrived, AdvanceHandler, HandlerAt;
    if doc in w.docs && m.id in w.docs[doc].waiting {
      PageWaits(w, doc, m.id);
    }
  }

  lemma PageWaits(w: World, doc: DocId, id: RequestId)
    requires Inv(w) && doc in w.docs && id in w.docs[doc].waiting
    ensures id in w.stages && w.stages[id] == Waiting
  {
    DocIsOk(w, doc);
    WaitingIs(w, doc, id);
  }

  lemma AdvanceReplies(w: World, h: HandlerId, id: RequestId)
    requires h in w.handlers
    ensures var v := AdvanceHandler(w, h, w.handlers[h]);
            id in v.stages ==> Sets(w, Advance(h), id) || (id in w.stages && w.stages[id] == v.stages[id])
  {}

  /** The page of some document waits for the answer to `id`. */
  ghost predicate Awaited(w: World, id: RequestId) {
    exists doc :: doc in w.docs && id in w.docs[doc].waiting
  }

  lemma AwaitedIsWaiting(w: World, id: RequestId)
    requires Inv(w) && Awaited(w, id)
    ensures id in w.stages && w.stages[id] == Waiting
  {
    var doc :| doc in w.docs && id in w.docs[doc].waiting;
    PageWaits(w, doc, id);
  }

  /** When every write of a run is current, a request that was answered as pending -- in
      particular one a page waits for -- was set, and is stored if and only if it has not
      been taken back since: by its approval, its refusal or a clear. */
  lemma AwaitedIsStored(actions: seq<Action>, id: RequestId)
    requires AllCurrent(actions)
    ensures var w := Run(START, actions);
      && (id in w.stored <==> exists i :: KeptSince(actions, i, id))
      && (Awaited(w, id) ==> id in w.stages && w.stages[id] == Waiting)
      && (id in w.stages && w.stages[id] != Creating ==> exists i :: SetsAt(actions, i, id))
  {
    var w := Run(START, actions);
    StoreFollowsLedger(actions);
    assert actions[..|actions|] == actions;
    assert StoreIsLedger(actions[..|actions|]);
    LedgerMembers(actions, id);
    RunKeepsInv(actions);
    hide Inv, Run, Ledger, SetsAt, TakesBackAt, AllCurrent, KeptSince, Awaited;
    if Awaited(w, id) {
      AwaitedIsWaiting(w, id);
    }
    if id in w.stages && w.stages[id] != Creating {
      RepliedWasSet(actions, id);
    }
  }

  /** So a request that a page waits for and that nobody approved, refused or cleared is
      in the store. */
  lemma UntouchedIsStored(actions: seq<Action>, id: RequestId)
    requires AllCurrent(actions) && Awaited(Run(START, actions), id)
    requires forall j :: !TakesBackAt(actions, j, id)
    ensures id in Run(START, actions).stored
  {
    AwaitedIsStored(actions, id);
    hide AllCurrent, Awaited, SetsAt, TakesBackAt, Run;
    var i :| SetsAt(actions, i, id);
    assert KeptSince(actions, i, id);
  }

  // ----- A schedule that keeps every write current

  ghost predicate ReadsAt(actions: seq<Action>, i: int, h: HandlerId) {
    0 <= i < |actions| && actions[i] == Advance(h)
    && var w := Run(START, actions[..i]); h in w.handlers && Reading(w.handlers[h])
  }

  ghost predicate WritesAt(actions: seq<Action>, j: int) {
    0 <= j < |actions| && IsWrite(Run(START, actions[..j]), actions[j])
  }

  /** The action writes the stored map or clears it. */
  ghost predicate Touches(actions: seq<Action>, j: int) {
    0 <= j < |actions| && (actions[j].ClearStore? || WritesAt(actions, j))
  }

  /** Nothing touches the store between a handler's read and its write. */
  ghost predicate Undivided(actions: seq<Action>) {
    forall i, j, k, h ::
      ReadsAt(actions, i, h) && WritesAt(actions, j) && actions[j] == Advance(h) && i < k < j ==> !Touches(actions, k)
  }

  /** The handler that is about to write read its map at the `i`-th action. */
  ghost predicate ReadAtBefore(actions: seq<Action>, h: HandlerId, i: int) {
    ReadsAt(actions, i, h)
    && var w := Run(START, actions);
       h in w.handlers && Writing(w.handlers[h]) && w.handlers[h].all == Run(START, actions[..i]).stored
  }

  lemma ReadsLonger(before: seq<Action>, last: Action, i: int, h: HandlerId)
    ensures 0 <= i < |before| ==> (ReadsAt(before + [last], i, h) <==> ReadsAt(before, i, h))
    ensures 0 <= i <= |before| ==> (before + [last])[..i] == before[..i]
    ensures ReadsAt(before + [last], |before|, h) <==>
            var w := Run(START, before); last == Advance(h) && h in w.handlers && Reading(w.handlers[h])
    ensures Run(START, before + [last]) == Step(Run(START, before), last)
  {
    var actions := before + [last];
    assert 0 <= i <= |before| ==> actions[..i] == before[..i];
    assert 0 <= i < |before| ==> actions[i] == before[i];
    assert actions[..|before|] == before && actions[|actions| - 1] == last;
    hide Step, Reading;
  }

  /** A handler comes to write only by reading. */
  lemma WritingStarts(w: World, h: HandlerId, a: Action)
    requires h in Step(w, a).handlers && Writing(Step(w, a).handlers[h])
    ensures h in w.handlers
    ensures if a == Advance(h) then Reading(w.handlers[h]) else Step(w, a).handlers[h] == w.handlers[h]
  {
    if a == Advance(h) {
      AdvanceStartsWriting(w, h);
    } else if h in w.handlers {
      HandlerWaitsStep(w, h, a);
    } else {
      NewHandlersDoNotWrite(w, h, a);
    }
    hide Step, Reading, Writing;
  }

  lemma AdvanceStartsWriting(w: World, h: HandlerId)
    requires h in Step(w, Advance(h)).handlers && Writing(Step(w, Advance(h)).handlers[h])
    ensures h in w.handlers && Reading(w.handlers[h])
  {
    hide Send;
    match w.handlers[h]
    case OpeningPopup(_) =>
    case SetWrites(_, _) =>
    case ApproveGets(_, _, _) =>
    case ConnectingSite(_, _) =>
    case ApproveWrites(_, _, _) =>
    case RejectGets(_, _) =>
    case RejectWrites(_, _, _, _) =>
    case _ =>
  }

  lemma NewHandlersDoNotWrite(w: World, h: HandlerId, a: Action)
    requires h !in w.handlers && a != Advance(h)
    ensures h in Step(w, a).handlers ==> !Writing(Step(w, a).handlers[h])
  {
    if a.Advance? && a.handler in w.handlers {
      AdvanceMoves(w, a.handler, w.handlers[a.handler]);
    }
    hide AdvanceHandler;
  }

  lemma {:induction false} EveryWriteWasRead(actions: seq<Action>, h: HandlerId) returns (i: nat)
    requires var w := Run(START, actions); h in w.handlers && Writing(w.handlers[h])
    ensures ReadAtBefore(actions, h, i)
  {
    assert actions != [];
    var before, last := actions[..|actions| - 1], actions[|actions| - 1];
    assert actions == before + [last];
    var w := Run(START, before);
    assert Run(START, actions) == Step(w, last);
    WritingStarts(w, h, last);
    if last == Advance(h) {
      i := |before|;
      ReadsStored(w, h);
    } else {
      i := EveryWriteWasRead(before, h);
    }
    ReadsLonger(before, last, i, h);
    assert before[..|before|] == before;
    hide Step, Run, Reading, Writing;
  }

  lemma UntouchedStep(actions: seq<Action>, k: nat)
    requires k < |actions| && !Touches(actions, k)
    ensures Run(START, actions[..k + 1]).stored == Run(START, actions[..k]).stored
  {
    assert actions[..k + 1][..k] == actions[..k];
    OthersUnwritten(Run(START, actions[..k]), actions[k]);
    hide Step;
  }

  lemma {:induction false} UntouchedStays(actions: seq<Action>, i: nat, j: nat)
    requires i <= j <= |actions| && forall k :: i <= k < j ==> !Touches(actions, k)
    ensures Run(START, actions[..j]).stored == Run(START, actions[..i]).stored
    decreases j - i
  {
    if i < j {
      UntouchedStays(actions, i, j - 1);
      UntouchedStep(actions, j - 1);
    }
  }

  /** A handler's write is current when nothing touches the store between its read and its
      write; so a schedule that keeps to that keeps every write current, and the store
      equal to the ledger. */
  lemma UndividedIsCurrent(actions: seq<Action>)
    requires Undivided(actions)
    ensures AllCurrent(actions)
  {
    forall j | 0 <= j < |actions|
      ensures CurrentAt(actions, j)
    {
      var w := Run(START, actions[..j]);
      if IsWrite(w, actions[j]) {
        var h := actions[j].handler;
        var i := EveryWriteWasRead(actions[..j], h);
        assert actions[..j][..i] == actions[..i] && ReadsAt(actions, i, h);
        assert !Touches(actions, i) by { ReadTouchesNothing(actions, i, h); }
        UntouchedStays(actions, i, j);
      }
    }
  }

  lemma ReadTouchesNothing(actions: seq<Action>, i: nat, h: HandlerId)
    requires ReadsAt(actions, i, h)
    ensures !Touches(actions, i)
  {}

  // ----- A write that is not current happens

  /** Two requests created side by side, each read before either is written: the page of
      the first waits for a request that nobody refused and that is not in the store. */
  lemma ConcurrentRequestIsLost() returns (actions: seq<Action>)
    ensures var w := Run(START, actions);
      && 0 in w.docs && 0 in w.docs[0].waiting && 0 !in w.stored && 1 in w.stored
      && w.sent == {} && w.approvals == {}
      && forall h :: h in w.handlers ==> w.handlers[h] == Finished
    ensures forall a :: a in actions ==> !a.Approve? && !a.Reject? && !a.ClearStore?
  {
    hide Run;
    var w, run := BothHaveRead();
    w, run := Then(w, run, Advance(0));
    assert w.stored == map[0 := P];
    w, run := Then(w, run, Advance(1));
    assert w.stored == map[1 := Q];
    assert w.stages[0] == Replied && w.handlers == map[0 := Finished, 1 := Finished];
    w, run := Then(w, run, DeliverReply(0, false));
    return run;
  }

  const P := Pending(0, Connect, "a", 7)
  const Q := Pending(1, Connect, "b", 7)

  /** Both handlers have read the empty store. */
  lemma BothHaveRead() returns (w: World, run: seq<Action>)
    ensures Run(START, run) == w && forall a :: a in run ==> !a.Approve? && !a.Reject? && !a.ClearStore?
    ensures w == World(map[], map[0 := Document(7, map[], [])],
                       map[0 := SetWrites(P, map[]), 1 := SetWrites(Q, map[])], {}, 2,
                       map[0 := Origin(0, 7, "m", Connect, 0), 1 := Origin(0, 7, "n", Connect, 1)],
                       map[0 := Creating, 1 := Creating], {})
  {
    hide Run;
    w, run := START, [];
    RunNothing(START);
    w, run := Then(w, run, OpenDocument(0, 7));
    w, run := Then(w, run, Ask(0, 0, "m", Connect, "a"));
    w, run := Then(w, run, Ask(1, 0, "n", Connect, "b"));
    assert w.handlers == map[0 := OpeningPopup(P), 1 := OpeningPopup(Q)] && w.stored == map[];
    w, run := Then(w, run, Advance(0));
    w, run := Then(w, run, Advance(1));
    w, run := Then(w, run, Advance(0));
    w, run := Then(w, run, Advance(1));
    assert w.handlers == map[0 := SetWrites(P, map[]), 1 := SetWrites(Q, map[])];
  }

  lemma Then(w: World, run: seq<Action>, a: Action) returns (w': World, run': seq<Action>)
    requires Run(START, run) == w
    ensures w' == Step(w, a) && run' == run + [a] && Run(START, run') == w'
  {
    RunThen(START, run, a);
    return Step(w, a), run + [a];
  }
}
