/** The life of a dapp request: handlers of the service worker, content scripts and the
    store, interleaved at every await and with messages delivered late or repeatedly. */
module DappRequests {
  import opened Options
  import opened RequestParts

  type DocId = nat
  type HandlerId = nat

  /** A handler of the service worker; each phase waits for one storage operation. */
  datatype Handler =
    | OpeningPopup(req: Pending)
    | SetReads(req: Pending)
    | SetWrites(req: Pending, all: Stored)
    | ApproveGets(id: RequestId, asConnect: bool, data: string)
    | ConnectingSite(seen: Pending, data: string)
    | ApproveReads(seen: Pending, data: string)
    | ApproveWrites(seen: Pending, data: string, all: Stored)
    | RejectGets(id: RequestId, reason: string)
    | RejectReads(id: RequestId, found: Option<Pending>, reason: string)
    | RejectWrites(id: RequestId, found: Option<Pending>, reason: string, all: Stored)
    | Finished

  /** History: who asked. */
  datatype Origin = Origin(doc: DocId, tab: TabId, msgId: MsgId, kind: Kind, handler: HandlerId)

  /** History: how far the answer to a request has come. */
  datatype Stage = Creating | Replied | Waiting | Posted

  /** History: an APPROVE handler saw the request in the store, with this tab. */
  datatype Approval = Approval(id: RequestId, tab: TabId, data: string, asConnect: bool)

  /** A message to the page of a tab. */
  datatype Message = Message(tab: TabId, id: RequestId, response: Response)

  datatype World = World(
    stored: Stored,
    docs: map<DocId, Document>,
    handlers: map<HandlerId, Handler>,
    sent: set<Message>,               // delivered late, in any order, or repeatedly
    nextId: RequestId,
    origins: map<RequestId, Origin>,
    stages: map<RequestId, Stage>,
    approvals: set<Approval>)

  const START := World(map[], map[], map[], {}, 0, map[], map[], {})

  datatype Action =
    | OpenDocument(doc: DocId, tab: TabId)
    | Ask(handler: HandlerId, doc: DocId, msgId: MsgId, kind: Kind, origin: string)
    | Approve(handler: HandlerId, id: RequestId, asConnect: bool, data: string)
    | Reject(handler: HandlerId, id: RequestId, reason: string)   // the user, the expiry sweep or a closed window
    | ClearStore                                                  // a lock, or the worker starting again
    | Advance(handler: HandlerId)
    | DeliverReply(id: RequestId, failed: bool)
    | DeliverMessage(message: Message, doc: DocId)

  function HandlerAt(w: World, h: HandlerId, next: Handler): World {
    w.(handlers := w.handlers[h := next])
  }

  function Send(w: World, tab: TabId, id: RequestId, response: Response): World {
    w.(sent := w.sent + {Message(tab, id, response)})
  }

  function AdvanceHandler(w: World, h: HandlerId, c: Handler): World {
    match c
    case OpeningPopup(req) => HandlerAt(w, h, SetReads(req))
    case SetReads(req) => HandlerAt(w, h, SetWrites(req, w.stored))
    case SetWrites(req, all) =>
      HandlerAt(w.(stored := all[req.id := req], stages := w.stages[req.id := Replied]), h, Finished)
    case ApproveGets(id, asConnect, data) =>
      if id !in w.stored || (asConnect && w.stored[id].kind != Connect) then HandlerAt(w, h, Finished)
      else
        var seen := w.stored[id];
        HandlerAt(w.(approvals := w.approvals + {Approval(seen.id, seen.sourceTab, data, asConnect)}), h,
                  if asConnect then ConnectingSite(seen, data) else ApproveReads(seen, data))
    case ConnectingSite(seen, data) => HandlerAt(w, h, ApproveReads(seen, data))
    case ApproveReads(seen, data) => HandlerAt(w, h, ApproveWrites(seen, data, w.stored))
    case ApproveWrites(seen, data, all) =>
      HandlerAt(Send(w.(stored := all - {seen.id}), seen.sourceTab, seen.id, Success(data)), h, Finished)
    case RejectGets(id, reason) =>
      HandlerAt(w, h, RejectReads(id, if id in w.stored then Some(w.stored[id]) else None, reason))
    case RejectReads(id, found, reason) => HandlerAt(w, h, RejectWrites(id, found, reason, w.stored))
    case RejectWrites(id, found, reason, all) =>
      var v := w.(stored := all - {id});
      HandlerAt(if found.Some? then Send(v, found.value.sourceTab, id, Failure(reason)) else v, h, Finished)
    case Finished => w
  }

  /** One step of the system; an action that is not possible does nothing. */
  function Step(w: World, a: Action): World {
    match a
    case OpenDocument(doc, tab) =>
      if doc in w.docs then w else w.(docs := w.docs[doc := Document(tab, map[], [])])
    case Ask(h, doc, msgId, kind, origin) =>
      if h in w.handlers || doc !in w.docs || msgId == "" then w   // a message without an id is not forwarded
      else
        var tab := w.docs[doc].tab;
        w.(handlers := w.handlers[h := OpeningPopup(Pending(w.nextId, kind, origin, tab))],
           nextId := w.nextId + 1,
           origins := w.origins[w.nextId := Origin(doc, tab, msgId, kind, h)],
           stages := w.stages[w.nextId := Creating])
    case Approve(h, id, asConnect, data) =>
      if h in w.handlers then w else HandlerAt(w, h, ApproveGets(id, asConnect, data))
    case Reject(h, id, reason) => if h in w.handlers then w else HandlerAt(w, h, RejectGets(id, reason))
    case ClearStore => w.(stored := map[])
    case Advance(h) => if h in w.handlers then AdvanceHandler(w, h, w.handlers[h]) else w
    case DeliverReply(id, failed) =>
      if id !in w.stages || w.stages[id] != Replied || id !in w.origins || w.origins[id].doc !in w.docs then w
      else
        var o := w.origins[id];
        var d := w.docs[o.doc];
        w.(docs := w.docs[o.doc := if failed then ReplyLost(d, id, o.msgId) else ReplyArrived(d, id, o.msgId)],
           stages := w.stages[id := if failed then Posted else Waiting])
    case DeliverMessage(m, doc) =>
      if m !in w.sent || doc !in w.docs || w.docs[doc].tab != m.tab then w
      else
        w.(docs := w.docs[doc := ResponseArrived(w.docs[doc], m.id, m.response)],
           stages := if m.id in w.docs[doc].waiting then w.stages[m.id := Posted] else w.stages)
  }

  function Run(w: World, actions: seq<Action>): World {
    if actions == [] then w else Step(Run(w, actions[..|actions| - 1]), actions[|actions| - 1])
  }

  // ----- The invariant

  /** A record carries its request's own tab and kind. */
  ghost predicate PendingOk(w: World, p: Pending) {
    p.id in w.origins && w.origins[p.id].tab == p.sourceTab && w.origins[p.id].kind == p.kind
  }

  ghost predicate StoredOk(w: World, all: Stored) {
    forall id :: id in all ==> all[id].id == id && PendingOk(w, all[id])
  }

  ghost predicate Approved(w: World, id: RequestId, tab: TabId, data: string) {
    exists asConnect :: Approval(id, tab, data, asConnect) in w.approvals
  }

  ghost predicate CreatingOk(w: World, h: HandlerId, req: Pending) {
    PendingOk(w, req) && req.id in w.stages && w.stages[req.id] == Creating && w.origins[req.id].handler == h
  }

  ghost predicate HandlerOk(w: World, h: HandlerId, c: Handler) {
    match c
    case OpeningPopup(req) => CreatingOk(w, h, req)
    case SetReads(req) => CreatingOk(w, h, req)
    case SetWrites(req, all) => CreatingOk(w, h, req) && StoredOk(w, all)
    case ConnectingSite(seen, data) => PendingOk(w, seen) && Approved(w, seen.id, seen.sourceTab, data)
    case ApproveReads(seen, data) => PendingOk(w, seen) && Approved(w, seen.id, seen.sourceTab, data)
    case ApproveWrites(seen, data, all) =>
      PendingOk(w, seen) && Approved(w, seen.id, seen.sourceTab, data) && StoredOk(w, all)
    case RejectReads(id, found, _) => found.Some? ==> PendingOk(w, found.value) && found.value.id == id
    case RejectWrites(id, found, _, all) =>
      (found.Some? ==> PendingOk(w, found.value) && found.value.id == id) && StoredOk(w, all)
    case _ => true
  }

  /** A post answers a request of this document, to the message that asked, and is
      a success only if it was approved. */
  ghost predicate PostOk(w: World, doc: DocId, p: Post) {
    && p.request in w.origins && w.origins[p.request].doc == doc && w.origins[p.request].msgId == p.msgId
    && p.request in w.stages && w.stages[p.request] == Posted
    && (p.response.Success? ==> Approved(w, p.request, w.origins[p.request].tab, p.response.data))
  }

  ghost predicate DocOk(w: World, doc: DocId, d: Document) {
    && (forall id :: id in d.waiting ==>
          && id in w.origins && w.origins[id].doc == doc && w.origins[id].msgId == d.waiting[id]
          && id in w.stages && w.stages[id] == Waiting)
    && (forall i :: 0 <= i < |d.posted| ==> PostOk(w, doc, d.posted[i]))
    && (forall i, j :: 0 <= i < j < |d.posted| ==> d.posted[i].request != d.posted[j].request)
  }

  ghost predicate OriginOk(w: World, id: RequestId) {
    id in w.origins ==>
      id < w.nextId && w.origins[id].doc in w.docs && w.docs[w.origins[id].doc].tab == w.origins[id].tab
  }

  ghost predicate SentOk(w: World, m: Message) {
    && m.id in w.origins && w.origins[m.id].tab == m.tab
    && (m.response.Success? ==> Approved(w, m.id, m.tab, m.response.data))
  }

  ghost predicate ApprovalOk(w: World, a: Approval) {
    a.id in w.origins && w.origins[a.id].tab == a.tab && (a.asConnect ==> w.origins[a.id].kind == Connect)
  }

  ghost predicate Inv(w: World) {
    && (forall id :: id in w.origins ==> OriginOk(w, id))
    && (forall id :: id in w.stages ==> id in w.origins)
    && StoredOk(w, w.stored)
    && (forall h :: h in w.handlers ==> HandlerOk(w, h, w.handlers[h]))
    && (forall doc :: doc in w.docs ==> DocOk(w, doc, w.docs[doc]))
    && (forall m :: m in w.sent ==> SentOk(w, m))
    && (forall a :: a in w.approvals ==> ApprovalOk(w, a))
  }

  /** What no step takes back. */
  ghost predicate Grows(w: World, w': World) {
    && w.nextId <= w'.nextId
    && (forall id :: id in w.origins ==> id in w'.origins && w'.origins[id] == w.origins[id])
    && w.approvals <= w'.approvals
    && (forall doc :: doc in w.docs ==> doc in w'.docs && w'.docs[doc].tab == w.docs[doc].tab)
  }

  /** Only the answer to `x` may have come further. */
  ghost predicate StagesBut(w: World, w': World, x: RequestId) {
    forall id :: id in w.stages && id != x ==> id in w'.stages && w'.stages[id] == w.stages[id]
  }

  lemma StoredCarries(w: World, w': World, all: Stored)
    requires Grows(w, w') && StoredOk(w, all)
    ensures StoredOk(w', all)
  {}

  lemma ApprovedCarries(w: World, w': World, id: RequestId, tab: TabId, data: string)
    requires Grows(w, w') && Approved(w, id, tab, data)
    ensures Approved(w', id, tab, data)
  {
    var asConnect :| Approval(id, tab, data, asConnect) in w.approvals;
    assert Approval(id, tab, data, asConnect) in w'.approvals;
  }

  lemma HandlerCarries(w: World, w': World, h: HandlerId, c: Handler, x: RequestId)
    requires Grows(w, w') && StagesBut(w, w', x) && HandlerOk(w, h, c)
    requires x in w.stages && w.stages[x] == Creating ==> x in w.origins && w.origins[x].handler != h
    ensures HandlerOk(w', h, c)
  {
    hide Approved, StoredOk;
    match c
    case SetWrites(_, all) => StoredCarries(w, w', all);
    case ConnectingSite(seen, data) => ApprovedCarries(w, w', seen.id, seen.sourceTab, data);
    case ApproveReads(seen, data) => ApprovedCarries(w, w', seen.id, seen.sourceTab, data);
    case ApproveWrites(seen, data, all) =>
      ApprovedCarries(w, w', seen.id, seen.sourceTab, data);
      StoredCarries(w, w', all);
    case RejectWrites(_, _, _, all) => StoredCarries(w, w', all);
    case _ =>
  }

  lemma PostCarries(w: World, w': World, doc: DocId, p: Post, x: RequestId)
    requires Grows(w, w') && StagesBut(w, w', x) && PostOk(w, doc, p) && p.request != x
    ensures PostOk(w', doc, p)
  {
    hide Approved;
    if p.response.Success? {
      ApprovedCarries(w, w', p.request, w.origins[p.request].tab, p.response.data);
    }
  }

  lemma DocCarries(w: World, w': World, doc: DocId, d: Document, x: RequestId)
    requires Grows(w, w') && StagesBut(w, w', x) && DocOk(w, doc, d)
    requires x in w.stages && (w.stages[x] == Waiting || w.stages[x] == Posted) ==>
             x in w.origins && w.origins[x].doc != doc
    ensures DocOk(w', doc, d)
  {
    hide PostOk;
    forall i | 0 <= i < |d.posted|
      ensures PostOk(w', doc, d.posted[i])
    {
      assert PostOk(w, doc, d.posted[i]);
      PostStage(w, doc, d.posted[i]);
      PostCarries(w, w', doc, d.posted[i], x);
    }
  }

  lemma PostStage(w: World, doc: DocId, p: Post)
    requires PostOk(w, doc, p)
    ensures p.request in w.stages && w.stages[p.request] == Posted && p.request in w.origins
            && w.origins[p.request].doc == doc
  {}

  lemma SharedCarries(w: World, w': World)
    requires Inv(w) && Grows(w, w')
    requires w'.origins == w.origins
    ensures forall id :: id in w'.origins ==> OriginOk(w', id)
    ensures forall m :: m in w.sent ==> SentOk(w', m)
    ensures forall a :: a in w.approvals ==> ApprovalOk(w', a)
    ensures StoredOk(w', w.stored)
  {
    hide HandlerOk, DocOk, StoredOk, SentOk, ApprovalOk;
    StoredCarries(w, w', w.stored);
    forall m | m in w.sent
      ensures SentOk(w', m)
    {
      SentCarries(w, w', m);
    }
    forall id | id in w'.origins
      ensures OriginOk(w', id)
    {
      assert OriginOk(w, id);
    }
    forall a | a in w.approvals
      ensures ApprovalOk(w', a)
    {
      ApprovalCarries(w, w', a);
    }
  }

  /** A step of handler `h` alone: documents stay, and only the answer to the
      request it creates can come further. */
  lemma HandlerStep(w: World, w': World, h: HandlerId, x: RequestId)
    requires Inv(w) && Grows(w, w') && StagesBut(w, w', x)
    requires w'.docs == w.docs && w'.origins == w.origins && h in w'.handlers
    requires w'.handlers == w.handlers[h := w'.handlers[h]]
    requires x in w.stages ==> w.stages[x] == Creating && x in w.origins && w.origins[x].handler == h
    requires HandlerOk(w', h, w'.handlers[h]) && StoredOk(w', w'.stored)
    requires forall id :: id in w'.stages ==> id in w.stages
    requires forall m :: m in w'.sent && m !in w.sent ==> SentOk(w', m)
    requires forall a :: a in w'.approvals && a !in w.approvals ==> ApprovalOk(w', a)
    ensures Inv(w')
  {
    hide HandlerOk, DocOk, StoredOk, SentOk, ApprovalOk, OriginOk;
    SharedCarries(w, w');
    forall k | k in w'.handlers
      ensures HandlerOk(w', k, w'.handlers[k])
    {
      if k != h {
        HandlerCarries(w, w', k, w.handlers[k], x);
      }
    }
    forall doc | doc in w'.docs
      ensures DocOk(w', doc, w'.docs[doc])
    {
      DocCarries(w, w', doc, w.docs[doc], x);
    }
  }

  lemma NextIsFree(w: World)
    requires Inv(w)
    ensures w.nextId !in w.stages && w.nextId !in w.origins
  {
    assert w.nextId in w.origins ==> OriginOk(w, w.nextId);
  }

  lemma StoredIsOk(w: World)
    requires Inv(w)
    ensures StoredOk(w, w.stored)
  {}

  lemma HandlerIsOk(w: World, h: HandlerId)
    requires Inv(w) && h in w.handlers
    ensures HandlerOk(w, h, w.handlers[h])
  {}

  lemma DocIsOk(w: World, doc: DocId)
    requires Inv(w) && doc in w.docs
    ensures DocOk(w, doc, w.docs[doc])
  {}

  lemma StoredSet(w: World, all: Stored, p: Pending)
    requires StoredOk(w, all) && PendingOk(w, p)
    ensures StoredOk(w, all[p.id := p])
  {}

  lemma StoredRemove(w: World, all: Stored, id: RequestId)
    requires StoredOk(w, all)
    ensures StoredOk(w, all - {id})
  {}

  /** A handler moves on and changes nothing else. */
  lemma QuietStep(w: World, h: HandlerId, next: Handler)
    requires Inv(w) && HandlerOk(HandlerAt(w, h, next), h, next)
    ensures Inv(HandlerAt(w, h, next))
  {
    hide Inv, StoredOk, HandlerOk, SentOk, ApprovalOk;
    NextIsFree(w);
    StoredIsOk(w);
    var w' := HandlerAt(w, h, next);
    StoredCarries(w, w', w.stored);
    HandlerStep(w, w', h, w.nextId);
  }

  /** The next phase of a handler whose await changes nothing it shares. */
  function NextQuiet(w: World, c: Handler): Handler {
    match c
    case OpeningPopup(req) => SetReads(req)
    case SetReads(req) => SetWrites(req, w.stored)
    case ConnectingSite(seen, data) => ApproveReads(seen, data)
    case ApproveReads(seen, data) => ApproveWrites(seen, data, w.stored)
    case RejectGets(id, reason) => RejectReads(id, if id in w.stored then Some(w.stored[id]) else None, reason)
    case RejectReads(id, found, reason) => RejectWrites(id, found, reason, w.stored)
    case _ => c
  }

  lemma QuietKeepsInv(w: World, h: HandlerId)
    requires Inv(w) && h in w.handlers
    ensures Inv(HandlerAt(w, h, NextQuiet(w, w.handlers[h])))
  {
    hide Inv, StoredOk, SentOk, ApprovalOk;
    StoredIsOk(w);
    HandlerIsOk(w, h);
    NextIsFree(w);
    var c := w.handlers[h];
    var w' := HandlerAt(w, h, NextQuiet(w, c));
    StoredCarries(w, w', w.stored);
    HandlerCarries(w, w', h, c, w.nextId);
    if c.RejectGets? && c.id in w.stored {
      StoredPending(w, c.id);
    }
    QuietStep(w, h, NextQuiet(w, c));
  }

  lemma CreateKeepsInv(w: World, h: HandlerId, req: Pending, all: Stored)
    requires Inv(w) && h in w.handlers && w.handlers[h] == SetWrites(req, all)
    ensures Inv(AdvanceHandler(w, h, w.handlers[h]))
  {
    hide Inv, StoredOk, SentOk, ApprovalOk;
    HandlerIsOk(w, h);
    assert CreatingOk(w, h, req) && StoredOk(w, all);
    hide HandlerOk;
    var w' := HandlerAt(w.(stored := all[req.id := req], stages := w.stages[req.id := Replied]), h, Finished);
    StoredSet(w, all, req);
    StoredCarries(w, w', all[req.id := req]);
    FinishedOk(w', h);
    HandlerStep(w, w', h, req.id);
  }

  lemma FinishedOk(w: World, h: HandlerId)
    ensures HandlerOk(w, h, Finished)
  {}

  lemma SeeKeepsInv(w: World, h: HandlerId, id: RequestId, asConnect: bool, data: string)
    requires Inv(w) && h in w.handlers && w.handlers[h] == ApproveGets(id, asConnect, data)
    ensures Inv(AdvanceHandler(w, h, w.handlers[h]))
  {
    hide Inv, StoredOk, SentOk, ApprovalOk, Approved;
    FinishedOk(HandlerAt(w, h, Finished), h);
    if id !in w.stored || (asConnect && w.stored[id].kind != Connect) {
      QuietStep(w, h, Finished);
    } else {
      var seen := w.stored[id];
      var w' := AdvanceHandler(w, h, w.handlers[h]);
      StoredIsOk(w);
      StoredPending(w, id);
      NewApprovalOk(w', seen, data, asConnect);
      StoredCarries(w, w', w.stored);
      assert HandlerOk(w', h, w'.handlers[h]);
      hide HandlerOk;
      NextIsFree(w);
      HandlerStep(w, w', h, w.nextId);
    }
  }

  lemma StoredPending(w: World, id: RequestId)
    requires StoredOk(w, w.stored) && id in w.stored
    ensures PendingOk(w, w.stored[id]) && w.stored[id].id == id
  {}

  lemma NewApprovalOk(w: World, seen: Pending, data: string, asConnect: bool)
    requires PendingOk(w, seen) && Approval(seen.id, seen.sourceTab, data, asConnect) in w.approvals
    requires asConnect ==> seen.kind == Connect
    ensures ApprovalOk(w, Approval(seen.id, seen.sourceTab, data, asConnect))
    ensures Approved(w, seen.id, seen.sourceTab, data)
  {}

  lemma DeliverKeepsInv(w: World, h: HandlerId, seen: Pending, data: string, all: Stored)
    requires Inv(w) && h in w.handlers && w.handlers[h] == ApproveWrites(seen, data, all)
    ensures Inv(AdvanceHandler(w, h, w.handlers[h]))
  {
    hide Inv, StoredOk, SentOk, ApprovalOk;
    StoredIsOk(w);
    HandlerIsOk(w, h);
    var w' := AdvanceHandler(w, h, w.handlers[h]);
    NextIsFree(w);
    StoredRemove(w, all, seen.id);
    StoredCarries(w, w', all - {seen.id});
    ApprovedCarries(w, w', seen.id, seen.sourceTab, data);
    FinishedOk(w', h);
    hide Inv, StoredOk, HandlerOk, Approved;
    NewSentOk(w', seen, Success(data));
    HandlerStep(w, w', h, w.nextId);
  }

  lemma NewSentOk(w: World, seen: Pending, response: Response)
    requires PendingOk(w, seen)
    requires response.Success? ==> Approved(w, seen.id, seen.sourceTab, response.data)
    ensures SentOk(w, Message(seen.sourceTab, seen.id, response))
  {}

  lemma RefuseWriteKeepsInv(w: World, h: HandlerId, id: RequestId, found: Option<Pending>, reason: string, all: Stored)
    requires Inv(w) && h in w.handlers && w.handlers[h] == RejectWrites(id, found, reason, all)
    ensures Inv(AdvanceHandler(w, h, w.handlers[h]))
  {
    hide Inv, StoredOk, SentOk, ApprovalOk;
    StoredIsOk(w);
    HandlerIsOk(w, h);
    var w' := AdvanceHandler(w, h, w.handlers[h]);
    NextIsFree(w);
    StoredRemove(w, all, id);
    StoredCarries(w, w', all - {id});
    FinishedOk(w', h);
    if found.Some? {
      NewSentOk(w', found.value, Failure(reason));
    }
    hide HandlerOk;
    HandlerStep(w, w', h, w.nextId);
  }

  lemma AdvanceKeepsInv(w: World, h: HandlerId)
    requires Inv(w) && h in w.handlers
    ensures Inv(AdvanceHandler(w, h, w.handlers[h]))
  {
    hide Inv;
    match w.handlers[h]
    case SetWrites(req, all) => CreateKeepsInv(w, h, req, all);
    case ApproveGets(id, asConnect, data) => SeeKeepsInv(w, h, id, asConnect, data);
    case ApproveWrites(seen, data, all) => DeliverKeepsInv(w, h, seen, data, all);
    case RejectWrites(id, found, reason, all) => RefuseWriteKeepsInv(w, h, id, found, reason, all);
    case Finished =>
    case _ => QuietKeepsInv(w, h);
  }

  /** A step of the content script of `doc` about request `x`. */
  lemma DocumentStep(w: World, w': World, doc: DocId, x: RequestId)
    requires Inv(w) && doc in w.docs && doc in w'.docs && StagesBut(w, w', x)
    requires w' == w.(docs := w.docs[doc := w'.docs[doc]], stages := w'.stages)
    requires w'.docs[doc].tab == w.docs[doc].tab && (forall id :: id in w'.stages ==> id in w.stages)
    requires x in w.stages ==> w.stages[x] != Creating
    requires x in w.stages && (w.stages[x] == Waiting || w.stages[x] == Posted) ==>
             x in w.origins && w.origins[x].doc == doc
    requires DocOk(w', doc, w'.docs[doc])
    ensures Inv(w')
  {
    hide HandlerOk, DocOk, StoredOk, SentOk, ApprovalOk, OriginOk;
    SharedCarries(w, w');
    forall h | h in w'.handlers
      ensures HandlerOk(w', h, w'.handlers[h])
    {
      HandlerCarries(w, w', h, w.handlers[h], x);
    }
    forall other | other in w'.docs
      ensures DocOk(w', other, w'.docs[other])
    {
      if other != doc {
        DocCarries(w, w', other, w.docs[other], x);
      }
    }
  }

  lemma NotMentioned(w: World, doc: DocId, d: Document, id: RequestId)
    requires DocOk(w, doc, d) && id in w.stages && w.stages[id] != Posted
    ensures forall i :: 0 <= i < |d.posted| ==> d.posted[i].request != id
    ensures id in d.waiting ==> w.stages[id] == Waiting
  {
    forall i | 0 <= i < |d.posted|
      ensures d.posted[i].request != id
    {
      assert PostOk(w, doc, d.posted[i]);
    }
  }

  lemma PostsCarry(w: World, w': World, doc: DocId, d: Document, x: RequestId)
    requires Grows(w, w') && StagesBut(w, w', x) && DocOk(w, doc, d)
    requires forall i :: 0 <= i < |d.posted| ==> d.posted[i].request != x
    ensures forall i :: 0 <= i < |d.posted| ==> PostOk(w', doc, d.posted[i])
  {
    hide PostOk;
    forall i | 0 <= i < |d.posted|
      ensures PostOk(w', doc, d.posted[i])
    {
      PostCarries(w, w', doc, d.posted[i], x);
    }
  }

  /** The document after a post for the request `x` that was not yet posted. */
  lemma PostedOk(w: World, w': World, doc: DocId, d: Document, d': Document, p: Post)
    requires Grows(w, w') && StagesBut(w, w', p.request) && DocOk(w, doc, d)
    requires p.request in w.stages && w.stages[p.request] != Posted && PostOk(w', doc, p)
    requires d'.posted == d.posted + [p] && d'.waiting == d.waiting - {p.request}
    ensures DocOk(w', doc, d')
  {
    NotMentioned(w, doc, d, p.request);
    PostsCarry(w, w', doc, d, p.request);
    hide PostOk;
    forall i | 0 <= i < |d'.posted|
      ensures PostOk(w', doc, d'.posted[i])
    {
      assert d'.posted[i] == if i < |d.posted| then d.posted[i] else p;
    }
  }

  lemma WaitsOk(w: World, w': World, doc: DocId, d: Document, x: RequestId)
    requires Grows(w, w') && StagesBut(w, w', x) && DocOk(w, doc, d)
    requires x in w.stages && w.stages[x] == Replied && x in w.origins && w.origins[x].doc == doc
    requires x in w'.stages && w'.stages[x] == Waiting
    ensures DocOk(w', doc, ReplyArrived(d, x, w.origins[x].msgId))
  {
    NotMentioned(w, doc, d, x);
    PostsCarry(w, w', doc, d, x);
    hide PostOk;
  }

  lemma LostOk(w: World, w': World, id: RequestId)
    requires Grows(w, w') && StagesBut(w, w', id) && id in w.origins && w.origins[id].doc in w.docs
    requires DocOk(w, w.origins[id].doc, w.docs[w.origins[id].doc])
    requires id in w.stages && w.stages[id] == Replied && id in w'.stages && w'.stages[id] == Posted
    ensures DocOk(w', w.origins[id].doc, ReplyLost(w.docs[w.origins[id].doc], id, w.origins[id].msgId))
  {
    var o := w.origins[id];
    var d := w.docs[o.doc];
    NotMentioned(w, o.doc, d, id);
    hide DocOk;
    assert d.waiting - {id} == d.waiting;
    PostedOk(w, w', o.doc, d, ReplyLost(d, id, o.msgId), Post(id, o.msgId, Failure("lastError")));
  }

  lemma ReplyKeepsInv(w: World, id: RequestId, failed: bool)
    requires Inv(w)
    ensures Inv(Step(w, DeliverReply(id, failed)))
  {
    hide Inv, AdvanceHandler, HandlerAt, Send, ReplyLost, ReplyArrived;
    var w' := Step(w, DeliverReply(id, failed));
    if w' != w {
      ReplyStep(w, w', id, failed);
    }
  }

  lemma ReplyStep(w: World, w': World, id: RequestId, failed: bool)
    requires Inv(w) && id in w.stages && w.stages[id] == Replied && id in w.origins && w.origins[id].doc in w.docs
    requires var o := w.origins[id]; var d := w.docs[o.doc];
             w' == w.(docs := w.docs[o.doc :=
                        if failed then ReplyLost(d, id, o.msgId) else ReplyArrived(d, id, o.msgId)],
                      stages := w.stages[id := if failed then Posted else Waiting])
    ensures Inv(w')
  {
    hide Inv, DocOk, PostOk, HandlerOk, StoredOk;
    var o := w.origins[id];
    DocIsOk(w, o.doc);
    assert Grows(w, w') && StagesBut(w, w', id);
    assert DocOk(w', o.doc, w'.docs[o.doc]) by {
      if failed {
        LostOk(w, w', id);
      } else {
        WaitsOk(w, w', o.doc, w.docs[o.doc], id);
      }
    }
    hide Grows, StagesBut;
    DocumentStep(w, w', o.doc, id);
  }

  lemma DeliveredOk(w: World, w': World, doc: DocId, m: Message, p: Post)
    requires Grows(w, w') && SentOk(w, m) && p.request == m.id && p.response == m.response
    requires w.origins[m.id].doc == doc && w.origins[m.id].msgId == p.msgId
    requires m.id in w'.stages && w'.stages[m.id] == Posted
    ensures PostOk(w', doc, p)
  {
    hide Approved;
    if m.response.Success? {
      ApprovedCarries(w, w', m.id, m.tab, m.response.data);
    }
  }

  lemma MessageKeepsInv(w: World, m: Message, doc: DocId)
    requires Inv(w)
    ensures Inv(Step(w, DeliverMessage(m, doc)))
  {
    hide Inv, AdvanceHandler, HandlerAt, Send;
    var w' := Step(w, DeliverMessage(m, doc));
    if m in w.sent && doc in w.docs && w.docs[doc].tab == m.tab {
      if m.id in w.docs[doc].waiting {
        hide ResponseArrived;
        MessageStep(w, w', m, doc);
      } else {
        assert w'.docs == w.docs;
        assert w' == w;
      }
    }
  }

  lemma MessageStep(w: World, w': World, m: Message, doc: DocId)
    requires Inv(w) && m in w.sent && doc in w.docs && w.docs[doc].tab == m.tab && m.id in w.docs[doc].waiting
    requires w' == w.(docs := w.docs[doc := ResponseArrived(w.docs[doc], m.id, m.response)],
                      stages := w.stages[m.id := Posted])
    ensures Inv(w')
  {
    hide Inv, PostOk, SentOk, DocOk, ResponseArrived;
    SentIsOk(w, m);
    DocIsOk(w, doc);
    WaitingIs(w, doc, m.id);
    ResponseKeepsTab(w.docs[doc], m.id, m.response);
    assert Grows(w, w') && StagesBut(w, w', m.id);
    hide Grows, StagesBut;
    MessageDocOk(w, w', m, doc);
    DocumentStep(w, w', doc, m.id);
  }

  lemma ResponseKeepsTab(d: Document, id: RequestId, response: Response)
    ensures ResponseArrived(d, id, response).tab == d.tab
  {}

  lemma WaitingIs(w: World, doc: DocId, id: RequestId)
    requires doc in w.docs && DocOk(w, doc, w.docs[doc]) && id in w.docs[doc].waiting
    ensures id in w.stages && w.stages[id] == Waiting && id in w.origins && w.origins[id].doc == doc
            && w.origins[id].msgId == w.docs[doc].waiting[id]
  {}

  lemma MessageDocOk(w: World, w': World, m: Message, doc: DocId)
    requires Grows(w, w') && StagesBut(w, w', m.id) && SentOk(w, m)
    requires doc in w.docs && DocOk(w, doc, w.docs[doc]) && m.id in w.docs[doc].waiting
    requires m.id in w'.stages && w'.stages[m.id] == Posted
    ensures DocOk(w', doc, ResponseArrived(w.docs[doc], m.id, m.response))
  {
    var d := w.docs[doc];
    WaitingIs(w, doc, m.id);
    hide PostOk, DocOk, Grows;
    var p := Post(m.id, d.waiting[m.id], m.response);
    DeliveredOk(w, w', doc, m, p);
    PostedOk(w, w', doc, d, ResponseArrived(d, m.id, m.response), p);
  }

  lemma SentIsOk(w: World, m: Message)
    requires Inv(w) && m in w.sent
    ensures SentOk(w, m)
  {}

  lemma AskKeepsInv(w: World, h: HandlerId, doc: DocId, msgId: MsgId, kind: Kind, origin: string)
    requires Inv(w)
    ensures Inv(Step(w, Ask(h, doc, msgId, kind, origin)))
  {
    hide Inv, HandlerAt, AdvanceHandler;
    var w' := Step(w, Ask(h, doc, msgId, kind, origin));
    if h !in w.handlers && doc in w.docs && msgId != "" {
      NextIsFree(w);
      assert Grows(w, w');
      AskedOk(w, w', h, w.nextId);
    }
  }

  lemma AskedOk(w: World, w': World, h: HandlerId, x: RequestId)
    requires Inv(w) && Grows(w, w') && x == w.nextId && x !in w.origins && h !in w.handlers
    requires x in w'.origins && OriginOk(w', x) && h in w'.handlers && HandlerOk(w', h, w'.handlers[h])
    requires w' == w.(handlers := w.handlers[h := w'.handlers[h]], nextId := x + 1,
                      origins := w.origins[x := w'.origins[x]], stages := w.stages[x := Creating])
    ensures Inv(w')
  {
    hide StoredOk, SentOk, HandlerOk, DocOk, ApprovalOk;
    NextIsFree(w);
    StoredCarries(w, w', w.stored);
    forall k | k in w'.handlers
      ensures HandlerOk(w', k, w'.handlers[k])
    {
      if k != h { HandlerCarries(w, w', k, w.handlers[k], x); }
    }
    forall d | d in w'.docs
      ensures DocOk(w', d, w'.docs[d])
    {
      DocCarries(w, w', d, w.docs[d], x);
    }
    forall m | m in w'.sent
      ensures SentOk(w', m)
    {
      SentCarries(w, w', m);
    }
    forall a | a in w'.approvals
      ensures ApprovalOk(w', a)
    {
      ApprovalCarries(w, w', a);
    }
    forall id | id in w'.origins
      ensures OriginOk(w', id)
    {
      assert id != x ==> OriginOk(w, id);
    }
  }

  lemma SentCarries(w: World, w': World, m: Message)
    requires Grows(w, w') && SentOk(w, m)
    ensures SentOk(w', m)
  {
    hide Approved;
    if m.response.Success? {
      ApprovedCarries(w, w', m.id, m.tab, m.response.data);
    }
  }

  lemma ApprovalCarries(w: World, w': World, a: Approval)
    requires Grows(w, w') && ApprovalOk(w, a)
    ensures ApprovalOk(w', a)
  {}

  lemma OpenKeepsInv(w: World, doc: DocId, tab: TabId)
    requires Inv(w)
    ensures Inv(Step(w, OpenDocument(doc, tab)))
  {
    hide Inv;
    if doc !in w.docs {
      var docs := w.docs[doc := Document(tab, map[], [])];
      StoredIsOk(w);
      assert DocOk(w.(stored := w.stored, docs := docs), doc, docs[doc]);
      hide DocOk;
      SharedStep(w, w.stored, docs, doc);
    }
  }

  /** The store is emptied or a document is opened. */
  lemma SharedStep(w: World, stored: Stored, docs: map<DocId, Document>, doc: DocId)
    requires Inv(w) && StoredOk(w, stored)
    requires docs == w.docs || (doc !in w.docs && doc in docs && docs == w.docs[doc := docs[doc]]
                                && DocOk(w.(stored := stored, docs := docs), doc, docs[doc]))
    ensures Inv(w.(stored := stored, docs := docs))
  {
    var w' := w.(stored := stored, docs := docs);
    hide StoredOk, OriginOk, SentOk, ApprovalOk, HandlerOk, DocOk;
    NextIsFree(w);
    SharedCarries(w, w');
    StoredCarries(w, w', stored);
    forall h | h in w'.handlers
      ensures HandlerOk(w', h, w'.handlers[h])
    {
      HandlerCarries(w, w', h, w.handlers[h], w.nextId);
    }
    forall d | d in w'.docs
      ensures DocOk(w', d, w'.docs[d])
    {
      if d in w.docs { DocCarries(w, w', d, w.docs[d], w.nextId); }
    }
  }

  lemma StepKeepsInv(w: World, a: Action)
    requires Inv(w)
    ensures Inv(Step(w, a))
  {
    match a
    case OpenDocument(doc, tab) => OpenKeepsInv(w, doc, tab);
    case Ask(h, doc, msgId, kind, origin) => AskKeepsInv(w, h, doc, msgId, kind, origin);
    case Approve(h, id, asConnect, data) => StartKeepsInv(w, h, ApproveGets(id, asConnect, data));
    case Reject(h, id, reason) => StartKeepsInv(w, h, RejectGets(id, reason));
    case ClearStore => SharedStep(w, map[], w.docs, 0);
    case Advance(h) => if h in w.handlers { AdvanceKeepsInv(w, h); }
    case DeliverReply(id, failed) => ReplyKeepsInv(w, id, failed);
    case DeliverMessage(m, doc) => MessageKeepsInv(w, m, doc);
  }

  lemma StartKeepsInv(w: World, h: HandlerId, c: Handler)
    requires Inv(w) && (c.ApproveGets? || c.RejectGets?)
    ensures h !in w.handlers ==> Inv(HandlerAt(w, h, c))
  {
    if h !in w.handlers {
      var w' := HandlerAt(w, h, c);
      StoredCarries(w, w', w.stored);
      assert HandlerOk(w', h, c);
      NextIsFree(w);
      hide Inv, StoredOk, HandlerOk;
      HandlerStep(w, w', h, w.nextId);
    }
  }

  lemma {:induction false} RunKeepsInv(actions: seq<Action>)
    ensures Inv(Run(START, actions))
  {
    if actions != [] {
      RunKeepsInv(actions[..|actions| - 1]);
      hide Inv;
      StepKeepsInv(Run(START, actions[..|actions| - 1]), actions[|actions| - 1]);
    }
  }

  // ----- What pages see

  ghost predicate Reachable(w: World) {
    exists actions :: Run(START, actions) == w
  }

  /** `p` is the `i`-th response posted by document `doc`. */
  ghost predicate PostedAt(w: World, doc: DocId, i: int, p: Post) {
    doc in w.docs && 0 <= i < |w.docs[doc].posted| && w.docs[doc].posted[i] == p
  }

  /** Whatever is approved, rejected, expired, swept, lost or delivered twice, and
      in whatever order, a request is answered to a page at most once: by the
      document that asked, to the message that asked. */
  lemma AnsweredAtMostOnce(w: World, doc: DocId, i: int, p: Post, doc': DocId, i': int, p': Post)
    requires Reachable(w) && PostedAt(w, doc, i, p) && PostedAt(w, doc', i', p') && p.request == p'.request
    ensures doc == doc' && i == i'
    ensures p.request in w.origins && w.origins[p.request].doc == doc && w.origins[p.request].msgId == p.msgId
  {
    var actions :| Run(START, actions) == w;
    RunKeepsInv(actions);
    assert DocOk(w, doc, w.docs[doc]) && DocOk(w, doc', w.docs[doc']);
    assert PostOk(w, doc, p) && PostOk(w, doc', p');
  }

  /** A success reaches a page only if an APPROVE handler saw the request in the
      store with the tab it came from; a connection approval only a CONNECT. */
  lemma SuccessWasApproved(w: World, doc: DocId, i: int, p: Post)
    requires Reachable(w) && PostedAt(w, doc, i, p) && p.response.Success?
    ensures exists a :: a in w.approvals && a.id == p.request && a.tab == w.docs[doc].tab
                        && a.data == p.response.data
                        && (a.asConnect ==> p.request in w.origins && w.origins[p.request].kind == Connect)
  {
    var actions :| Run(START, actions) == w;
    RunKeepsInv(actions);
    assert DocOk(w, doc, w.docs[doc]);
    assert PostOk(w, doc, p);
    var tab := w.origins[p.request].tab;
    var asConnect :| Approval(p.request, tab, p.response.data, asConnect) in w.approvals;
    var a := Approval(p.request, tab, p.response.data, asConnect);
    assert ApprovalOk(w, a) && OriginOk(w, p.request);
  }

  // ----- An undisturbed answer arrives

  lemma RunThen(w: World, actions: seq<Action>, a: Action)
    ensures Run(w, actions + [a]) == Step(Run(w, actions), a)
  {
    assert (actions + [a])[..|actions|] == actions;
  }

  lemma RunFive(w: World, a: Action, b: Action, d: Action)
    ensures Run(w, [a, b, b, b, b, d]) == Step(Step(Step(Step(Step(Step(w, a), b), b), b), b), d)
  {
    RunNothing(w);
    hide Step, Run;
    RunThen(w, [], a);
    RunThen(w, [] + [a], b);
    RunThen(w, [] + [a] + [b], b);
    RunThen(w, [] + [a] + [b] + [b], b);
    RunThen(w, [] + [a] + [b] + [b] + [b], b);
    RunThen(w, [] + [a] + [b] + [b] + [b] + [b], d);
    assert [] + [a] + [b] + [b] + [b] + [b] + [d] == [a, b, b, b, b, d];
  }

  lemma RunNothing(w: World)
    ensures Run(w, []) == w
  {}

  lemma AdvanceStep(w: World, h: HandlerId)
    requires h in w.handlers
    ensures Step(w, Advance(h)) == AdvanceHandler(w, h, w.handlers[h])
  {}

  /** The last two awaits of an approval: the map is read, then written. */
  lemma ReadThenSent(w: World, h: HandlerId, seen: Pending, data: string) returns (r: World)
    requires h in w.handlers && w.handlers[h] == ApproveReads(seen, data)
    ensures r == Step(Step(w, Advance(h)), Advance(h)) && Step(r, Advance(h)) == r
    ensures r.stored == w.stored - {seen.id} && r.docs == w.docs && r.stages == w.stages
    ensures Message(seen.sourceTab, seen.id, Success(data)) in r.sent
  {
    hide Step;
    AdvanceStep(w, h);
    var v := HandlerAt(w, h, ApproveWrites(seen, data, w.stored));
    AdvanceStep(v, h);
    r := AdvanceHandler(v, h, ApproveWrites(seen, data, w.stored));
    AdvanceStep(r, h);
  }

  lemma ApprovalSent(w: World, h: HandlerId, id: RequestId, asConnect: bool, data: string) returns (r: World)
    requires StoredOk(w, w.stored) && id in w.stored && h !in w.handlers
    requires asConnect ==> w.stored[id].kind == Connect
    ensures var begun := Step(w, Approve(h, id, asConnect, data));
            r == Step(Step(Step(Step(begun, Advance(h)), Advance(h)), Advance(h)), Advance(h))
    ensures r.stored == w.stored - {id} && r.docs == w.docs && r.stages == w.stages
    ensures Message(w.stored[id].sourceTab, id, Success(data)) in r.sent
  {
    var seen := w.stored[id];
    assert seen.id == id;
    var w1 := Step(w, Approve(h, id, asConnect, data));
    assert w1 == HandlerAt(w, h, ApproveGets(id, asConnect, data));
    hide Step, StoredOk;
    AdvanceStep(w1, h);
    var w2 := Step(w1, Advance(h));
    assert w2.stored == w.stored && w2.docs == w.docs && w2.stages == w.stages;
    if asConnect {
      AdvanceStep(w2, h);
      hide AdvanceHandler;
      r := ReadThenSent(Step(w2, Advance(h)), h, seen, data);
    } else {
      hide AdvanceHandler;
      r := ReadThenSent(w2, h, seen, data);
    }
  }

  /** Approving a connection under the id of another kind of request, or under an id
      that is not stored, changes nothing, however long the handler goes on. */
  lemma ApprovalIgnored(w: World, h: HandlerId, id: RequestId, asConnect: bool, data: string) returns (r: World)
    requires h !in w.handlers && (id !in w.stored || (asConnect && w.stored[id].kind != Connect))
    ensures r == Step(Step(w, Approve(h, id, asConnect, data)), Advance(h)) && Step(r, Advance(h)) == r
    ensures r == w.(handlers := w.handlers[h := Finished])
  {
    var w1 := Step(w, Approve(h, id, asConnect, data));
    assert w1 == HandlerAt(w, h, ApproveGets(id, asConnect, data));
    hide Step;
    AdvanceStep(w1, h);
    r := HandlerAt(w, h, Finished);
    assert w1.handlers[h := Finished] == w.handlers[h := Finished];
    AdvanceStep(r, h);
  }

  lemma Delivered(w: World, m: Message, doc: DocId)
    requires m in w.sent && doc in w.docs && w.docs[doc].tab == m.tab && m.id in w.docs[doc].waiting
    ensures var r := Step(w, DeliverMessage(m, doc));
      && r.docs == w.docs[doc := Answered(w.docs[doc], m.id, m.response)]
      && r.stages == w.stages[m.id := Posted] && r.stored == w.stored && r.approvals == w.approvals
  {}

  /** The document after the response to `id` is posted to its page. */
  function Answered(d: Document, id: RequestId, response: Response): Document
    requires id in d.waiting
  {
    Document(d.tab, d.waiting - {id}, d.posted + [Post(id, d.waiting[id], response)])
  }

  /** The page that waits for a stored request gets the approval, posted to the message
      that asked, and the request leaves the store; no other page gets anything. */
  lemma ApprovalArrives(w: World, h: HandlerId, id: RequestId, asConnect: bool, data: string, doc: DocId)
    requires StoredOk(w, w.stored) && id in w.stored && h !in w.handlers
    requires asConnect ==> w.stored[id].kind == Connect
    requires doc in w.docs && w.docs[doc].tab == w.stored[id].sourceTab && id in w.docs[doc].waiting
    ensures
      var r := Run(w, [Approve(h, id, asConnect, data), Advance(h), Advance(h), Advance(h), Advance(h),
                       DeliverMessage(Message(w.docs[doc].tab, id, Success(data)), doc)]);
      && r.stored == w.stored - {id} && r.stages == w.stages[id := Posted]
      && r.docs == w.docs[doc := Answered(w.docs[doc], id, Success(data))]
  {
    hide Run, Step, Answered, StoredOk;
    var m := Message(w.docs[doc].tab, id, Success(data));
    RunFive(w, Approve(h, id, asConnect, data), Advance(h), DeliverMessage(m, doc));
    var sent := ApprovalSent(w, h, id, asConnect, data);
    Delivered(sent, m, doc);
  }

  lemma RefusalSent(w: World, h: HandlerId, id: RequestId, reason: string) returns (r: World)
    requires id in w.stored && h !in w.handlers
    ensures r == Step(Step(Step(Step(Step(w, Reject(h, id, reason)), Advance(h)), Advance(h)), Advance(h)), Advance(h))
    ensures r.stored == w.stored - {id} && r.docs == w.docs && r.stages == w.stages && r.approvals == w.approvals
    ensures Message(w.stored[id].sourceTab, id, Failure(reason)) in r.sent
  {
    var found := Some(w.stored[id]);
    var w1 := Step(w, Reject(h, id, reason));
    assert w1 == HandlerAt(w, h, RejectGets(id, reason));
    hide Step;
    AdvanceStep(w1, h);
    var w2 := HandlerAt(w1, h, RejectReads(id, found, reason));
    AdvanceStep(w2, h);
    var w3 := HandlerAt(w2, h, RejectWrites(id, found, reason, w.stored));
    AdvanceStep(w3, h);
    r := AdvanceHandler(w3, h, w3.handlers[h]);
    AdvanceStep(r, h);
  }

  /** The same for a refusal, an expiry or a closed window. */
  lemma RefusalArrives(w: World, h: HandlerId, id: RequestId, reason: string, doc: DocId)
    requires id in w.stored && h !in w.handlers
    requires doc in w.docs && w.docs[doc].tab == w.stored[id].sourceTab && id in w.docs[doc].waiting
    ensures
      var r := Run(w, [Reject(h, id, reason), Advance(h), Advance(h), Advance(h), Advance(h),
                       DeliverMessage(Message(w.docs[doc].tab, id, Failure(reason)), doc)]);
      && r.stored == w.stored - {id} && r.docs == w.docs[doc := Answered(w.docs[doc], id, Failure(reason))]
      && r.stages == w.stages[id := Posted] && r.approvals == w.approvals
  {
    hide Run, Step, Answered;
    var m := Message(w.docs[doc].tab, id, Failure(reason));
    RunFive(w, Reject(h, id, reason), Advance(h), DeliverMessage(m, doc));
    var sent := RefusalSent(w, h, id, reason);
    Delivered(sent, m, doc);
  }

  lemma RunAsk(w: World, a: Action, b: Action, d: Action)
    ensures Run(w, [a, b, b, b, d]) == Step(Step(Step(Step(Step(w, a), b), b), b), d)
  {
    RunNothing(w);
    hide Step, Run;
    RunThen(w, [], a);
    RunThen(w, [] + [a], b);
    RunThen(w, [] + [a] + [b], b);
    RunThen(w, [] + [a] + [b] + [b], b);
    RunThen(w, [] + [a] + [b] + [b] + [b], d);
    assert [] + [a] + [b] + [b] + [b] + [d] == [a, b, b, b, d];
  }

  lemma RequestSet(w: World, h: HandlerId, req: Pending) returns (r: World)
    requires h in w.handlers && w.handlers[h] == OpeningPopup(req)
    ensures r == Step(Step(Step(w, Advance(h)), Advance(h)), Advance(h))
    ensures r.stored == w.stored[req.id := req] && r.stages == w.stages[req.id := Replied]
    ensures r.docs == w.docs && r.origins == w.origins && r.sent == w.sent && r.approvals == w.approvals
  {
    hide Step;
    AdvanceStep(w, h);
    var w1 := HandlerAt(w, h, SetReads(req));
    AdvanceStep(w1, h);
    var w2 := HandlerAt(w1, h, SetWrites(req, w.stored));
    AdvanceStep(w2, h);
    r := AdvanceHandler(w2, h, w2.handlers[h]);
  }

  /** How a request begins, undisturbed: a page asks, the request is stored under a new
      id with the page's own tab, and once the pending reply arrives the document
      remembers which message asked; if that reply is lost, the page is told at once. */
  lemma RequestBegins(w: World, h: HandlerId, doc: DocId, msgId: MsgId, kind: Kind, origin: string, failed: bool)
    requires h !in w.handlers && doc in w.docs && msgId != ""
    ensures
      var id, d := w.nextId, w.docs[doc];
      var r := Run(w, [Ask(h, doc, msgId, kind, origin), Advance(h), Advance(h), Advance(h), DeliverReply(id, failed)]);
      && r.nextId == id + 1 && r.stored == w.stored[id := Pending(id, kind, origin, d.tab)]
      && r.docs == w.docs[doc :=
           if failed then Document(d.tab, d.waiting, d.posted + [Post(id, msgId, Failure("lastError"))])
           else Document(d.tab, d.waiting[id := msgId], d.posted)]
      && r.sent == w.sent && r.approvals == w.approvals
  {
    var id, d := w.nextId, w.docs[doc];
    RunAsk(w, Ask(h, doc, msgId, kind, origin), Advance(h), DeliverReply(id, failed));
    var w1 := Step(w, Ask(h, doc, msgId, kind, origin));
    hide Run, AdvanceHandler;
    var r := RequestSet(w1, h, Pending(id, kind, origin, d.tab));
  }
}
