/** The parts of a dapp request: the content script (`content.ts`) and the pending-request
    store (`pending-requests.ts`), whose operations read the whole stored map, change it
    and write it back with awaits between. */
module RequestParts {
  import opened Options

  type RequestId = nat
  type TabId = nat
  type MsgId = string

  datatype Kind = Connect | Sign

  datatype Response = Success(data: string) | Failure(error: string)

  datatype Pending = Pending(id: RequestId, kind: Kind, origin: string, sourceTab: TabId)

  type Stored = map<RequestId, Pending>

  // ----- The content script of one document

  /** A response handed to the page, with the request it settles. */
  datatype Post = Post(request: RequestId, msgId: MsgId, response: Response)

  datatype Document = Document(tab: TabId, waiting: map<RequestId, MsgId>, posted: seq<Post>)

  function ReplyArrived(d: Document, request: RequestId, msgId: MsgId): Document {
    d.(waiting := d.waiting[request := msgId])
  }

  function ReplyLost(d: Document, request: RequestId, msgId: MsgId): Document {
    d.(posted := d.posted + [Post(request, msgId, Failure("lastError"))])
  }

  function ResponseArrived(d: Document, request: RequestId, response: Response): Document {
    if request !in d.waiting then d
    else d.(waiting := d.waiting - {request}, posted := d.posted + [Post(request, d.waiting[request], response)])
  }

  class ContentScript {
    const tab: TabId
    var pendingByRequestId: map<RequestId, MsgId>
    var posted: seq<Post>

    ghost function State(): Document
      reads this
    {
      Document(tab, pendingByRequestId, posted)
    }

    constructor (tab: TabId)
      ensures State() == Document(tab, map[], [])
    {
      this.tab := tab;
      pendingByRequestId := map[];
      posted := [];
    }

    method OnPendingReply(request: RequestId, msgId: MsgId, failed: bool)
      modifies this
      ensures State() == if failed then ReplyLost(old(State()), request, msgId)
                         else ReplyArrived(old(State()), request, msgId)
      ensures failed ==> pendingByRequestId == old(pendingByRequestId)
                         && posted == old(posted) + [Post(request, msgId, Failure("lastError"))]
      ensures !failed ==> pendingByRequestId == old(pendingByRequestId)[request := msgId] && posted == old(posted)
    {
      if failed {
        posted := posted + [Post(request, msgId, Failure("lastError"))];
        return;
      }
      pendingByRequestId := pendingByRequestId[request := msgId];
    }

    method OnToPage(request: RequestId, response: Response)
      modifies this
      ensures State() == ResponseArrived(old(State()), request, response)
      ensures request !in old(pendingByRequestId) ==> State() == old(State())
      ensures request in old(pendingByRequestId) ==>
                pendingByRequestId == old(pendingByRequestId) - {request}
                && posted == old(posted) + [Post(request, old(pendingByRequestId)[request], response)]
    {
      if request !in pendingByRequestId {
        return;
      }
      var msgId := pendingByRequestId[request];
      pendingByRequestId := pendingByRequestId - {request};
      posted := posted + [Post(request, msgId, response)];
    }
  }

  /** The store when nobody else writes between an operation's two awaits. */
  class PendingRequestsStore {
    var stored: Stored

    constructor ()
      ensures stored == map[]
    {
      stored := map[];
    }

    method ReadAll() returns (all: Stored)
      ensures all == stored
    {
      all := stored;
    }

    method WriteAll(all: Stored)
      modifies this
      ensures stored == all
    {
      stored := all;
    }

    method Get(id: RequestId) returns (r: Option<Pending>)
      ensures r == if id in stored then Some(stored[id]) else None
    {
      var all := ReadAll();
      return if id in all then Some(all[id]) else None;
    }

    method Set(req: Pending)
      modifies this
      ensures stored == old(stored)[req.id := req]
    {
      var all := ReadAll();
      WriteAll(all[req.id := req]);
    }

    method Remove(id: RequestId)
      modifies this
      ensures stored == old(stored) - {id}
    {
      var all := ReadAll();
      WriteAll(all - {id});
    }

    method ClearAll()
      modifies this
      ensures stored == map[]
    {
      WriteAll(map[]);
    }
  }
}
