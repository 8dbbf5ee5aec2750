/** What the upstream connection keeps whatever clients and backend do: requests
    and routes name each other, streams open in order and once, what the backend
    says of a stream goes to the client it was opened for and to nobody after it
    is let go, and every octet of credit is accounted for. */
module Remapping {
  import opened Octets
  import opened Frame
  import opened Flow
  import HpackTable
  import opened HpackCodec
  import opened Streams
  import CL = ClientLeg
  import opened Ring
  import opened Scheduler
  import opened Sums
  import opened Upstream

  // -------------------------------------------------------------------------
  // The record of what happened.
  // -------------------------------------------------------------------------

  function LastOpened(acts: seq<Act>): StreamId
    decreases |acts|
  {
    if acts == [] then 0
    else if acts[|acts| - 1].Opened? then acts[|acts| - 1].id
    else LastOpened(acts[..|acts| - 1])
  }

  function OpenedIds(acts: seq<Act>): seq<StreamId>
    decreases |acts|
  {
    if acts == [] then []
    else OpenedIds(acts[..|acts| - 1]) + (if acts[|acts| - 1].Opened? then [acts[|acts| - 1].id] else [])
  }

  /** One more act is in order: a stream opens above every other, an event goes to
      the client its stream was opened for and not after that was let go, and a
      stream is let go once. */
  predicate Follows(acts: seq<Act>, a: Act) {
    match a
    case Opened(id, request, _) =>
      ClientInitiated(id) && id > LastOpened(acts) && (forall b :: b in acts && b.Opened? ==> b.request != request)
    case Told(id, request, client, event) =>
      Opened(id, request, client) in acts && Forgot(id) !in acts && event.id == client.id
    case Forgot(id) => (exists b :: b in acts && b.Opened? && b.id == id) && Forgot(id) !in acts
    case TurnedAway(client, event) => event.id == client.id
  }

  ghost predicate InOrder(acts: seq<Act>)
    decreases |acts|
  {
    acts == [] || (InOrder(acts[..|acts| - 1]) && Follows(acts[..|acts| - 1], acts[|acts| - 1]))
  }

  /** Body octets of one stream sent on so far. */
  function DataTold(acts: seq<Act>, id: StreamId): nat
    decreases |acts|
  {
    if acts == [] then 0
    else
      var a := acts[|acts| - 1];
      DataTold(acts[..|acts| - 1], id) + (if a.Told? && a.id == id && a.event.BodyData? then |a.event.data| else 0)
  }

  /** Streams in the order their first HEADERS were written. */
  function Heads(written: seq<Frame>): seq<StreamId>
    decreases |written|
  {
    if written == [] then []
    else
      var past, f := Heads(written[..|written| - 1]), written[|written| - 1];
      if f.Headers? && f.stream !in past then past + [f.stream] else past
  }

  lemma ActSnoc(acts: seq<Act>, a: Act)
    ensures LastOpened(acts + [a]) == if a.Opened? then a.id else LastOpened(acts)
    ensures OpenedIds(acts + [a]) == OpenedIds(acts) + (if a.Opened? then [a.id] else [])
    ensures InOrder(acts + [a]) <==> InOrder(acts) && Follows(acts, a)
    ensures forall id :: DataTold(acts + [a], id) ==
                         DataTold(acts, id) + (if a.Told? && a.id == id && a.event.BodyData? then |a.event.data| else 0)
    ensures forall b :: b in acts + [a] <==> b in acts || b == a
  {
    assert (acts + [a])[..|acts|] == acts;
  }

  lemma HeadsSnoc(written: seq<Frame>, f: Frame)
    ensures Heads(written + [f]) ==
            if f.Headers? && f.stream !in Heads(written) then Heads(written) + [f.stream] else Heads(written)
  {
    assert (written + [f])[..|written|] == written;
  }

  // -------------------------------------------------------------------------
  // The invariant.
  // -------------------------------------------------------------------------

  function Held(r: Route): nat {
    r.pendingConnRelease
  }

  /** Octets each stream's client has sent back so far, and the size the connection
      window was opened to. */
  datatype Returns = Returns(octets: map<StreamId, nat>, window: I32)

  function Returned(r: Returns, id: StreamId): nat {
    if id in r.octets then r.octets[id] else 0
  }

  /** The two maps name each other, and no waiting request has ever had a stream. */
  ghost predicate Mutual(u: Up) {
    && (forall id :: id in u.routes ==> u.routes[id].request in u.requests && u.requests[u.routes[id].request] == id)
    && (forall q :: q in u.requests ==> u.requests[q] in u.routes && u.routes[u.requests[q]].request == q)
    && Distinct(u.pending)
    && (forall i :: 0 <= i < |u.pending| ==> Unopened(u, u.pending[i].request))
  }

  predicate Distinct(waiting: seq<Pending>) {
    forall i, j :: 0 <= i < j < |waiting| ==> waiting[i].request != waiting[j].request
  }

  predicate Waits(waiting: seq<Pending>, request: RequestId) {
    exists i :: 0 <= i < |waiting| && waiting[i].request == request
  }

  predicate Unopened(u: Up, request: RequestId) {
    forall a :: a in u.acts && a.Opened? ==> a.request != request
  }

  /** Live streams have routes; identifiers are ours and at or below the mark. */
  ghost predicate Numbered(u: Up) {
    && (forall id :: id in u.streams.live ==> id in u.routes)
    && (forall id :: id in u.routes ==> ClientInitiated(id) && id <= u.streams.highestLocal)
    && u.streams.highestPeer == 0
    && u.nextId == (if u.streams.highestLocal == 0 then 1 else u.streams.highestLocal + 2)
    && (u.streams.highestLocal == 0 || ClientInitiated(u.streams.highestLocal))
  }

  /** Routes are exactly the streams opened and not let go, each for the client it
      was opened for; and the wire agrees. */
  ghost predicate Recorded(u: Up) {
    && InOrder(u.acts)
    && LastOpened(u.acts) == u.streams.highestLocal
    && Heads(u.written) == OpenedIds(u.acts)
    && (forall id :: id in u.routes ==>
          Opened(id, u.routes[id].request, u.routes[id].client) in u.acts && Forgot(id) !in u.acts)
    && (forall a :: a in u.acts && a.Opened? && Forgot(a.id) !in u.acts ==> a.id in u.routes)
  }

  /** The connection's account: every octet the backend may not send is held by a
      route, waiting to be announced, or lost to a stream that overspent. And each
      route holds exactly what was sent on and has not come back. */
  ghost predicate Accounted(u: Up, lost: nat, returned: Returns) {
    u.connRecv.Accounts(lost + Total(u.routes, Held)) && Tracked(u, returned)
  }

  ghost predicate Tracked(u: Up, returned: Returns) {
    && (forall id :: id in u.routes ==> Held(u.routes[id]) + Returned(returned, id) == DataTold(u.acts, id))
    && (forall id :: id in returned.octets ==> id <= u.streams.highestLocal)
    && u.connRecv.initial == returned.window
  }

  ghost predicate Kept(u: Up, lost: nat, returned: Returns) {
    Mutual(u) && Numbered(u) && Recorded(u) && Accounted(u, lost, returned)
  }

  // -------------------------------------------------------------------------
  // Facts about the record.
  // -------------------------------------------------------------------------

  lemma {:induction false} OpenedBelowLast(acts: seq<Act>)
    requires InOrder(acts)
    ensures forall a :: a in acts && a.Opened? ==> 0 < a.id <= LastOpened(acts)
    ensures forall id: StreamId :: id > LastOpened(acts) ==> DataTold(acts, id) == 0
    ensures forall id :: id in OpenedIds(acts) <==> exists a :: a in acts && a.Opened? && a.id == id
    decreases |acts|
  {
    if acts != [] {
      var past, a := acts[..|acts| - 1], acts[|acts| - 1];
      assert acts == past + [a];
      ActSnoc(past, a);
      OpenedBelowLast(past);
    }
  }

  /** Streams open in strictly increasing order, odd, and each once. */
  lemma {:induction false} OpenedIdsIncrease(acts: seq<Act>)
    requires InOrder(acts)
    ensures StrictlyIncreasing(OpenedIds(acts), 0)
    ensures forall id :: id in OpenedIds(acts) ==> id <= LastOpened(acts)
    decreases |acts|
  {
    if acts != [] {
      var past, a := acts[..|acts| - 1], acts[|acts| - 1];
      assert acts == past + [a];
      ActSnoc(past, a);
      OpenedIdsIncrease(past);
      if a.Opened? {
        assert forall i :: 0 <= i < |OpenedIds(past)| ==> OpenedIds(past)[i] in OpenedIds(past);
      }
    }
  }

  // -------------------------------------------------------------------------
  // The steps handlers are made of.
  // -------------------------------------------------------------------------

  /** Nothing the invariant speaks of has changed but the streams' own contents. */
  lemma SameKept(u: Up, v: Up, lost: nat, returned: Returns)
    requires Kept(u, lost, returned)
    requires v.routes == u.routes && v.requests == u.requests && v.pending == u.pending && v.nextId == u.nextId
    requires v.acts == u.acts && Heads(v.written) == Heads(u.written) && v.connRecv == u.connRecv
    requires v.streams.live.Keys <= u.streams.live.Keys
    requires v.streams.highestLocal == u.streams.highestLocal && v.streams.highestPeer == u.streams.highestPeer
    ensures Kept(v, lost, returned)
  {
    assert forall id :: id in v.streams.live ==> id in u.streams.live;
  }

  lemma QueueKept(u: Up, f: Frame, lost: nat, returned: Returns)
    requires Kept(u, lost, returned) && (f.Headers? ==> f.stream in u.routes)
    ensures Kept(QueueFrame(u, f), lost, returned)
  {
    HeadsSnoc(u.written, f);
    if f.Headers? {
      OpenedBelowLast(u.acts);
      assert Act.Opened(f.stream, u.routes[f.stream].request, u.routes[f.stream].client) in u.acts;
    }
    SameKept(u, QueueFrame(u, f), lost, returned);
  }

  lemma TellKept(u: Up, id: StreamId, event: CL.ServiceEvent, lost: nat, returned: Returns)
    requires Kept(u, lost, returned) && id in u.routes && event.id == u.routes[id].client.id
    requires !event.BodyData?
    ensures Kept(Tell(u, id, event), lost, returned)
  {
    hide Distinct, DataTold, LastOpened, OpenedIds, InOrder, Total, Heads, Receive.Accounts;
    ActSnoc(u.acts, Told(id, u.routes[id].request, u.routes[id].client, event));
  }

  lemma RefuseKept(u: Up, client: Client, event: CL.ServiceEvent, lost: nat, returned: Returns)
    requires Kept(u, lost, returned) && event.id == client.id
    ensures Kept(Refuse(u, client, event), lost, returned)
  {
    hide Distinct, DataTold, LastOpened, OpenedIds, InOrder, Total, Heads, Receive.Accounts;
    ActSnoc(u.acts, TurnedAway(client, event));
  }

  /** Octets no route answers for any longer go back to the window. */
  lemma ReleaseConnKept(u: Up, n: U32, lost: nat, returned: Returns)
    requires Mutual(u) && Numbered(u) && Recorded(u)
    requires u.connRecv.Accounts(n + lost + Total(u.routes, Held))
    requires Tracked(u, returned)
    ensures Kept(ReleaseConn(u, n), lost, returned) && ReleaseConn(u, n).connRecv.initial == u.connRecv.initial
    ensures ReleaseConn(u, n).streams == u.streams && ReleaseConn(u, n).routes == u.routes
  {
    hide Distinct, DataTold, Total, InOrder, LastOpened, OpenedIds;
    ReleaseAccounts(u.connRecv, n + lost + Total(u.routes, Held), n);
    var (window, update) := u.connRecv.Release(n);
    var credited := u.(connRecv := window);
    assert Kept(credited, lost, returned);
    if update.Some? {
      QueueKept(credited, WindowUpdate(CONNECTION, update.value), lost, returned);
    }
  }

  lemma RetireKept(u: Up, id: StreamId, lost: nat, returned: Returns)
    requires Kept(u, lost, returned)
    ensures Kept(RetireStream(u, id), lost, returned) && id !in RetireStream(u, id).streams.live
  {
    hide Kept;
    SameKept(u, RetireStream(u, id), lost, returned);
  }

  lemma WriteRstKept(u: Up, id: StreamId, code: ErrorCode, lost: nat, returned: Returns)
    requires Kept(u, lost, returned)
    ensures Kept(WriteRst(u, id, code), lost, returned) && WriteRst(u, id, code).routes == u.routes
  {
    hide Kept;
    RetireKept(u, id, lost, returned);
    QueueKept(RetireStream(u, id), RstStream(id, code), lost, returned);
  }

  lemma PutKept(u: Up, id: StreamId, s: Stream, lost: nat, returned: Returns)
    requires Kept(u, lost, returned) && id in u.streams.live
    ensures Kept(Put(u, id, s), lost, returned)
  {
    hide Kept;
    SameKept(u, Put(u, id, s), lost, returned);
  }

  lemma EnqueueKept(u: Up, id: StreamId, lost: nat, returned: Returns)
    requires Kept(u, lost, returned)
    ensures Kept(EnqueueReady(u, id), lost, returned)
  {
    hide Kept;
    SameKept(u, EnqueueReady(u, id), lost, returned);
  }

  // -------------------------------------------------------------------------
  // Opening and letting go.
  // -------------------------------------------------------------------------

  /** A request that has never been seen. */
  ghost predicate Unseen(u: Up, request: RequestId) {
    && Unopened(u, request)
    && forall i :: 0 <= i < |u.pending| ==> u.pending[i].request != request
  }

  lemma UnseenIsUnopened(u: Up, request: RequestId)
    requires Unseen(u, request)
    ensures Unopened(u, request)
  {
  }

  lemma RouteIsNumbered(u: Up, id: StreamId)
    requires Numbered(u) && id in u.routes
    ensures id <= u.streams.highestLocal
  {
  }

  lemma MappedHasRoute(u: Up, request: RequestId)
    requires Mutual(u) && request in u.requests
    ensures u.requests[request] in u.routes
  {
  }

  /** Who waits and who has been cancelled is no part of the record or the account. */
  lemma WaitingIsNoRecord(u: Up, v: Up, lost: nat, returned: Returns)
    requires v == u.(pending := v.pending, cancelled := v.cancelled)
    ensures Recorded(u) ==> Recorded(v)
    ensures Accounted(u, lost, returned) ==> Accounted(v, lost, returned)
  {
  }

  lemma PutTracked(u: Up, id: StreamId, s: Stream, returned: Returns)
    requires Tracked(u, returned) && id in u.streams.live
    ensures Tracked(Put(u, id, s), returned)
  {
  }

  lemma MappedWasOpened(u: Up, request: RequestId)
    requires Mutual(u) && Recorded(u) && request in u.requests
    ensures !Unopened(u, request)
  {
    var id := u.requests[request];
    assert Act.Opened(id, request, u.routes[id].client) in u.acts;
  }

  /** With room, the table takes the next identifier and then its HEADERS. */
  lemma TableOpens(t: Table, id: StreamId, endStream: bool)
    requires CanOpenLocal(t) && ClientInitiated(id) && id > t.highestLocal
    ensures t.OpenLocal(id).1.Ok?
    ensures var sent := t.OpenLocal(id).0.Apply(id, SendHeaders(endStream)).0;
            && sent.live.Keys == t.live.Keys + {id}
            && sent.highestLocal == id && sent.highestPeer == t.highestPeer
  {
  }

  lemma NextIsFree(u: Up)
    requires Numbered(u) && u.streams.highestLocal < MAX_LOCAL_STREAM_ID
    ensures var id := StreamIdFrom(u.nextId);
            && id == u.nextId && ClientInitiated(id) && id > u.streams.highestLocal && id !in u.routes
            && SaturatingAdd(u.nextId, 2) == id + 2
  {
  }

  /** The request is on the wire and on record under it. */
  lemma OpenShape(u: Up, request: RequestId, client: Client, head: seq<Header>, endStream: bool)
    requires Numbered(u) && CanOpenLocal(u.streams)
    ensures var id := StreamIdFrom(u.nextId);
            var v := OpenStream(u, request, client, head, endStream);
            && ClientInitiated(id) && id > u.streams.highestLocal && id !in u.routes
            && v.routes == u.routes[id := Route(client, request, false, 0)]
            && v.requests == u.requests[request := id]
            && v.acts == u.acts + [Act.Opened(id, request, client)]
            && v.written == u.written + [Headers(id, u.encoder.Block(head), endStream, true)]
            && v.streams.live.Keys == u.streams.live.Keys + {id}
            && v.streams.highestLocal == id && v.streams.highestPeer == u.streams.highestPeer
            && v.nextId == id + 2
            && v.pending == u.pending && v.connRecv == u.connRecv
  {
    hide EncoderState.Block, EncoderState.After, Table.OpenLocal, Table.Apply, Numbered;
    NextIsFree(u);
    TableOpens(u.streams, StreamIdFrom(u.nextId), endStream);
  }

  lemma OpenMutual(u: Up, v: Up, id: StreamId, request: RequestId, client: Client)
    requires Mutual(u) && Recorded(u) && Unseen(u, request) && id !in u.routes
    requires v.routes == u.routes[id := Route(client, request, false, 0)] && v.requests == u.requests[request := id]
    requires v.acts == u.acts + [Act.Opened(id, request, client)] && v.pending == u.pending
    ensures Mutual(v)
  {
    hide Recorded;
    if request in u.requests {
      MappedWasOpened(u, request);
    }
  }

  lemma OpenRecorded(u: Up, v: Up, id: StreamId, request: RequestId, client: Client, f: Frame)
    requires Recorded(u) && Unopened(u, request) && ClientInitiated(id) && id > u.streams.highestLocal
    requires v.routes == u.routes[id := Route(client, request, false, 0)]
    requires v.acts == u.acts + [Act.Opened(id, request, client)] && v.written == u.written + [f]
    requires f.Headers? && f.stream == id && v.streams.highestLocal == id
    ensures Recorded(v)
  {
    hide DataTold, LastOpened, OpenedIds, InOrder, Heads;
    OpenedBelowLast(u.acts);
    ActSnoc(u.acts, Act.Opened(id, request, client));
    HeadsSnoc(u.written, f);
    if Forgot(id) in u.acts {
      ForgotWasOpened(u.acts, id);
    }
  }

  lemma OpenAccounted(u: Up, v: Up, id: StreamId, request: RequestId, client: Client, lost: nat, returned: Returns)
    requires Accounted(u, lost, returned) && Recorded(u) && id > u.streams.highestLocal && id !in u.routes
    requires v.routes == u.routes[id := Route(client, request, false, 0)] && v.connRecv == u.connRecv
    requires v.acts == u.acts + [Act.Opened(id, request, client)] && v.streams.highestLocal == id
    ensures Accounted(v, lost, returned)
  {
    hide DataTold, LastOpened, OpenedIds, InOrder, Heads, Total, Receive.Accounts;
    OpenedBelowLast(u.acts);
    ActSnoc(u.acts, Act.Opened(id, request, client));
    TotalPut(u.routes, Held, id, Route(client, request, false, 0));
  }

  lemma OpenKept(u: Up, request: RequestId, client: Client, head: seq<Header>, endStream: bool, lost: nat, returned: Returns)
    requires Kept(u, lost, returned) && Unseen(u, request) && CanOpenLocal(u.streams)
    ensures var v := OpenStream(u, request, client, head, endStream);
            && Kept(v, lost, returned) && v.connRecv == u.connRecv && v.pending == u.pending
            && request in v.requests
  {
    hide OpenStream, Mutual, Recorded, Accounted, EncoderState.Block, Unseen, Unopened;
    var id := StreamIdFrom(u.nextId);
    var v := OpenStream(u, request, client, head, endStream);
    OpenShape(u, request, client, head, endStream);
    OpenMutual(u, v, id, request, client);
    UnseenIsUnopened(u, request);
    OpenRecorded(u, v, id, request, client, Headers(id, u.encoder.Block(head), endStream, true));
    OpenAccounted(u, v, id, request, client, lost, returned);
  }

  lemma {:induction false} ForgotWasOpened(acts: seq<Act>, id: StreamId)
    requires InOrder(acts) && Forgot(id) in acts
    ensures exists a :: a in acts && a.Opened? && a.id == id
    decreases |acts|
  {
    var past, last := acts[..|acts| - 1], acts[|acts| - 1];
    assert acts == past + [last];
    if Forgot(id) in past {
      ForgotWasOpened(past, id);
    }
  }

  lemma PendKept(u: Up, p: Pending, lost: nat, returned: Returns)
    requires Kept(u, lost, returned) && Unseen(u, p.request)
    ensures Kept(u.(pending := u.pending + [p]), lost, returned)
  {
    hide Recorded, Accounted;
    var v := u.(pending := u.pending + [p]);
    WaitingIsNoRecord(u, v, lost, returned);
    forall i | 0 <= i < |v.pending|
      ensures Unopened(v, v.pending[i].request)
    {
      assert v.acts == u.acts;
      assert i < |u.pending| ==> Unopened(u, u.pending[i].request);
    }
  }

  lemma SendRequestKept(u: Up, request: RequestId, client: Client, head: seq<Header>, endStream: bool, lost: nat, returned: Returns)
    requires Kept(u, lost, returned) && Unseen(u, request)
    ensures var v := SendRequest(u, request, client, head, endStream);
            && Kept(v, lost, returned)
            && (CanOpenLocal(u.streams) ==> v.pending == u.pending)
  {
    hide Kept, Unseen, OpenStream, CanOpenLocal;
    SameKept(u, u.(cancelled := u.cancelled - {request}), lost, returned);
    RefuseKept(u, client, CL.ResetStream(client.id, RefusedStream), lost, returned);
    RefuseKept(u, client, CL.Shed(client.id), lost, returned);
    PendKept(u, Pending(request, client, head, endStream, [], None), lost, returned);
    if CanOpenLocal(u.streams) {
      OpenKept(u, request, client, head, endStream, lost, returned);
    }
  }

  lemma AttachKept(u: Up, p: Pending, lost: nat, returned: Returns)
    requires Kept(u, lost, returned)
    ensures Kept(Attach(u, p), lost, returned) && Attach(u, p).pending == u.pending
  {
    hide Kept, EnqueueReady, AnyEnd, Chunks;
    if p.request in u.requests {
      var id := u.requests[p.request];
      if id in u.streams.live {
        var s := u.streams.live[id];
        var full := s.(sendQueue := s.sendQueue + Chunks(p.body),
                       sendEndStream := s.sendEndStream || AnyEnd(p.body) || p.trailers.Some?,
                       pendingTrailers := if p.trailers.Some? then p.trailers else s.pendingTrailers);
        PutKept(u, id, full, lost, returned);
        EnqueueKept(Put(u, id, full), id, lost, returned);
        EnqueuePending(Put(u, id, full), id);
      }
    }
  }

  lemma EnqueuePending(u: Up, id: StreamId)
    ensures EnqueueReady(u, id).pending == u.pending
  {
  }

  /** The first of those waiting, taken off the queue, is still new. */
  lemma PopKept(u: Up, lost: nat, returned: Returns)
    requires Kept(u, lost, returned) && u.pending != []
    ensures var v := u.(pending := u.pending[1..]); Kept(v, lost, returned) && Unseen(v, u.pending[0].request)
  {
    hide Recorded, Accounted;
    var v := u.(pending := u.pending[1..]);
    WaitingIsNoRecord(u, v, lost, returned);
    assert Unopened(u, u.pending[0].request);
    forall i | 0 <= i < |v.pending|
      ensures Unopened(v, v.pending[i].request) && v.pending[i].request != u.pending[0].request
    {
      assert v.pending[i] == u.pending[i + 1] && Unopened(u, u.pending[i + 1].request);
    }
    forall i, j | 0 <= i < j < |v.pending|
      ensures v.pending[i].request != v.pending[j].request
    {
      assert v.pending[i] == u.pending[i + 1] && v.pending[j] == u.pending[j + 1];
    }
  }

  lemma {:induction false} DrainPendingKept(u: Up, lost: nat, returned: Returns)
    requires Kept(u, lost, returned)
    ensures Kept(DrainPending(u), lost, returned)
    decreases |u.pending|
  {
    hide Kept, SendRequest, Attach, CanOpenLocal, Unseen;
    if u.pending != [] && CanOpenLocal(u.streams) {
      var p := u.pending[0];
      var popped := u.(pending := u.pending[1..]);
      PopKept(u, lost, returned);
      SendRequestKept(popped, p.request, p.client, p.head, p.endStream, lost, returned);
      var sent := SendRequest(popped, p.request, p.client, p.head, p.endStream);
      AttachKept(sent, p, lost, returned);
      DrainPendingKept(Attach(sent, p), lost, returned);
    }
  }

  function DropRoute(u: Up, id: StreamId): Up
    requires id in u.routes
  {
    u.(routes := u.routes - {id}, requests := u.requests - {u.routes[id].request}, acts := u.acts + [Forgot(id)])
  }

  lemma DropMutual(u: Up, id: StreamId)
    requires Mutual(u) && id in u.routes
    ensures Mutual(DropRoute(u, id))
  {
    var v := DropRoute(u, id);
    forall i | 0 <= i < |v.pending|
      ensures Unopened(v, v.pending[i].request)
    {
      assert Unopened(u, u.pending[i].request);
    }
  }

  lemma DropRecorded(u: Up, id: StreamId)
    requires Recorded(u) && id in u.routes
    ensures Recorded(DropRoute(u, id))
  {
    hide DataTold, LastOpened, OpenedIds, InOrder, Heads;
    ActSnoc(u.acts, Forgot(id));
    assert Act.Opened(id, u.routes[id].request, u.routes[id].client) in u.acts;
  }

  /** A route let go: nothing it held is lost, and nothing more is told of it. */
  lemma DropAccounted(u: Up, id: StreamId, lost: nat, returned: Returns)
    requires Accounted(u, lost, returned) && id in u.routes
    ensures var v := DropRoute(u, id);
            && v.connRecv.Accounts(Held(u.routes[id]) + lost + Total(v.routes, Held))
            && Tracked(v, returned)
            && (Held(u.routes[id]) == 0 ==> Accounted(v, lost, returned))
  {
    hide DataTold, LastOpened, OpenedIds, InOrder, Total, Receive.Accounts;
    ActSnoc(u.acts, Forgot(id));
    TotalSplit(u.routes, Held, id);
  }

  lemma DropRouteKept(u: Up, id: StreamId, lost: nat, returned: Returns)
    requires Kept(u, lost, returned) && id in u.routes && id !in u.streams.live
    ensures var v := DropRoute(u, id);
            && Mutual(v) && Numbered(v) && Recorded(v)
            && v.connRecv.Accounts(Held(u.routes[id]) + lost + Total(v.routes, Held))
            && (Held(u.routes[id]) == 0 ==> Kept(v, lost, returned))
            && Tracked(v, returned)
  {
    hide Mutual, Recorded, Accounted, Total, DataTold;
    DropMutual(u, id);
    DropRecorded(u, id);
    DropAccounted(u, id, lost, returned);
  }

  lemma ForgetKept(u: Up, id: StreamId, lost: nat, returned: Returns)
    requires Kept(u, lost, returned)
    ensures Kept(Forget(u, id), lost, returned)
  {
    hide Kept, RetireStream, ReleaseConn, DrainPending, Mutual, Numbered, Recorded, Total, DataTold, Receive.Accounts;
    RetireKept(u, id, lost, returned);
    RetireShape(u, id);
    var retired := RetireStream(u, id);
    if id in u.routes {
      DropRouteKept(retired, id, lost, returned);
      var route := u.routes[id];
      var v := DropRoute(retired, id);
      if route.pendingConnRelease > 0 {
        ReleaseConnKept(v, route.pendingConnRelease, lost, returned);
        DrainPendingKept(ReleaseConn(v, route.pendingConnRelease), lost, returned);
      } else {
        DrainPendingKept(v, lost, returned);
      }
    } else {
      DrainPendingKept(retired, lost, returned);
    }
  }

  lemma RetireShape(u: Up, id: StreamId)
    ensures var v := RetireStream(u, id);
            && v.routes == u.routes && v.requests == u.requests && v.acts == u.acts
            && v.streams.highestLocal == u.streams.highestLocal
  {
  }

  lemma FailStreamKept(u: Up, id: StreamId, status: seq<Header>, lost: nat, returned: Returns)
    requires Kept(u, lost, returned)
    ensures Kept(FailStream(u, id, status), lost, returned)
  {
    hide Kept, Forget, WriteRst;
    var told :=
      if id !in u.routes then u
      else
        var client := u.routes[id].client.id;
        Tell(u, id, if u.routes[id].headSent then CL.ResetStream(client, InternalError) else CL.Head(client, status, true));
    if id in u.routes {
      var client := u.routes[id].client.id;
      TellKept(u, id, CL.ResetStream(client, InternalError), lost, returned);
      TellKept(u, id, CL.Head(client, status, true), lost, returned);
    }
    if id in told.streams.live {
      WriteRstKept(told, id, ErrorCode.Cancel, lost, returned);
      ForgetKept(WriteRst(told, id, ErrorCode.Cancel), id, lost, returned);
    } else {
      ForgetKept(told, id, lost, returned);
    }
  }

  lemma ApplyEventKept(u: Up, id: StreamId, event: StreamEvent, lost: nat, returned: Returns)
    requires Kept(u, lost, returned)
    ensures var r := Upstream.ApplyEvent(u, id, event); r.Ok? ==> Kept(r.value, lost, returned)
  {
    hide Kept, FailStream, Transition;
    var (table, r) := u.streams.Apply(id, event);
    if r.Ok? {
      SameKept(u, Upstream.ApplyEvent(u, id, event).value, lost, returned);
    } else {
      FailStreamKept(u, id, BAD_GATEWAY, lost, returned);
    }
  }

  // -------------------------------------------------------------------------
  // What clients ask for.
  // -------------------------------------------------------------------------

  /** A client gives each request an identifier of its own, and reports no more
      octets delivered than the route still holds. */
  ghost predicate Honest(u: Up, m: Message) {
    match m
    case Request(request, _, _, _) => Unseen(u, request)
    case Delivered(request, n) =>
      request in u.requests && u.requests[request] in u.routes ==> n <= Held(u.routes[u.requests[request]])
    case _ => true
  }

  /** Octets that have come back, once a message is handled. */
  function Returning(r: Returns, u: Up, m: Message): Returns {
    if m.Delivered? && m.request in u.requests then
      r.(octets := r.octets[u.requests[m.request] := Returned(r, u.requests[m.request]) + m.n])
    else r
  }

  /** Octets that come back leave the route and go to the window. */
  lemma ReleaseKept(u: Up, id: StreamId, n: U32, lost: nat, returned: Returns)
    requires Kept(u, lost, returned) && id in u.routes && n <= Held(u.routes[id])
    ensures Kept(Release(u, id, n), lost, returned.(octets := returned.octets[id := Returned(returned, id) + n]))
  {
    hide Mutual, Numbered, Recorded, DataTold, Total, Receive.Accounts, Receive.Release, ReleaseConn;
    var route := u.routes[id].(pendingConnRelease := u.routes[id].pendingConnRelease - n);
    var r1 := returned.(octets := returned.octets[id := Returned(returned, id) + n]);
    var owed := u.(routes := u.routes[id := route]);
    TotalPut(u.routes, Held, id, route);
    OwedShape(u, id, route);
    assert forall j :: j in r1.octets ==> j <= u.streams.highestLocal by {
      RouteIsNumbered(u, id);
    }
    if n == 0 {
      assert owed.routes == u.routes;
      assert owed == u;
    } else {
      OwnRelease(owed, id, n, lost, r1);
    }
  }

  /** A route's count is no part of who it is for. */
  lemma OwedShape(u: Up, id: StreamId, route: Route)
    requires Mutual(u) && Numbered(u) && Recorded(u) && id in u.routes
    requires route.request == u.routes[id].request && route.client == u.routes[id].client
    ensures var v := u.(routes := u.routes[id := route]); Mutual(v) && Numbered(v) && Recorded(v)
  {
    hide DataTold, LastOpened, OpenedIds, InOrder, Heads;
    var v := u.(routes := u.routes[id := route]);
    forall i | 0 <= i < |v.pending|
      ensures Unopened(v, v.pending[i].request)
    {
      assert Unopened(u, u.pending[i].request);
    }
  }

  /** The stream's own window, then the connection's. */
  lemma OwnRelease(u: Up, id: StreamId, n: U32, lost: nat, returned: Returns)
    requires Mutual(u) && Numbered(u) && Recorded(u) && id in u.routes
    requires u.connRecv.Accounts(n + lost + Total(u.routes, Held))
    requires Tracked(u, returned)
    ensures var own :=
              if id !in u.streams.live then u
              else
                var (window, update) := u.streams.live[id].recvWindow.Release(n);
                var kept := Put(u, id, u.streams.live[id].(recvWindow := window));
                if update.None? then kept else QueueFrame(kept, WindowUpdate(id, update.value));
            Kept(ReleaseConn(own, n), lost, returned)
  {
    hide Mutual, Numbered, Recorded, Tracked, Total, Receive.Accounts, Receive.Release, ReleaseConn;
    if id in u.streams.live {
      var (window, update) := u.streams.live[id].recvWindow.Release(n);
      var kept := Put(u, id, u.streams.live[id].(recvWindow := window));
      PutShape(u, id, u.streams.live[id].(recvWindow := window));
      PutTracked(u, id, u.streams.live[id].(recvWindow := window), returned);
      if update.Some? {
        UpdateShape(kept, id, update.value, returned);
        ReleaseConnKept(QueueFrame(kept, WindowUpdate(id, update.value)), n, lost, returned);
      } else {
        ReleaseConnKept(kept, n, lost, returned);
      }
    } else {
      ReleaseConnKept(u, n, lost, returned);
    }
  }

  lemma UpdateShape(u: Up, id: StreamId, n: U32, returned: Returns)
    requires Mutual(u) && Numbered(u) && Recorded(u) && Tracked(u, returned)
    ensures var v := QueueFrame(u, WindowUpdate(id, n)); Mutual(v) && Numbered(v) && Recorded(v) && Tracked(v, returned)
  {
    hide DataTold, LastOpened, OpenedIds, InOrder, Distinct;
    HeadsSnoc(u.written, WindowUpdate(id, n));
    var v := QueueFrame(u, WindowUpdate(id, n));
    forall i | 0 <= i < |v.pending|
      ensures Unopened(v, v.pending[i].request)
    {
      assert Unopened(u, u.pending[i].request);
    }
  }

  lemma {:induction false} AppendBodyRequests(pending: seq<Pending>, request: RequestId, data: seq<Octet>, endStream: bool)
    ensures var after := AppendBody(pending, request, data, endStream);
            |after| == |pending| && forall i :: 0 <= i < |pending| ==> after[i].request == pending[i].request
  {
    if pending != [] {
      AppendBodyRequests(pending[1..], request, data, endStream);
    }
  }

  lemma {:induction false} AppendTrailersRequests(pending: seq<Pending>, request: RequestId, fields: seq<Header>)
    ensures var after := AppendTrailers(pending, request, fields);
            |after| == |pending| && forall i :: 0 <= i < |pending| ==> after[i].request == pending[i].request
  {
    if pending != [] {
      AppendTrailersRequests(pending[1..], request, fields);
    }
  }

  lemma WaitsFirst(first: Pending, rest: seq<Pending>, q: RequestId)
    ensures Waits([first] + rest, q) <==> first.request == q || Waits(rest, q)
  {
    var all := [first] + rest;
    assert all[0] == first && forall i :: 0 <= i < |rest| ==> all[i + 1] == rest[i];
    if Waits(all, q) && first.request != q {
      var i :| 0 <= i < |all| && all[i].request == q;
      assert rest[i - 1].request == q;
    }
  }

  lemma DistinctFirst(first: Pending, rest: seq<Pending>)
    ensures Distinct([first] + rest) <==> Distinct(rest) && !Waits(rest, first.request)
  {
    hide Distinct, Waits;
    if Distinct([first] + rest) {
      DistinctRest(first, rest);
    }
    if Distinct(rest) && !Waits(rest, first.request) {
      DistinctWith(first, rest);
    }
  }

  lemma DistinctRest(first: Pending, rest: seq<Pending>)
    requires Distinct([first] + rest)
    ensures Distinct(rest) && !Waits(rest, first.request)
  {
    var all := [first] + rest;
    forall i | 0 <= i < |rest|
      ensures rest[i].request != first.request
    {
      assert all[0].request != all[i + 1].request;
    }
    forall i, j | 0 <= i < j < |rest|
      ensures rest[i].request != rest[j].request
    {
      assert all[i + 1].request != all[j + 1].request;
    }
  }

  lemma DistinctWith(first: Pending, rest: seq<Pending>)
    requires Distinct(rest) && !Waits(rest, first.request)
    ensures Distinct([first] + rest)
  {
    var all := [first] + rest;
    forall i, j | 0 <= i < j < |all|
      ensures all[i].request != all[j].request
    {
      assert all[j] == rest[j - 1];
      if i > 0 {
        assert all[i] == rest[i - 1];
      }
    }
  }

  lemma {:induction false} WithoutRequestKeeps(waiting: seq<Pending>, request: RequestId)
    requires Distinct(waiting)
    ensures Distinct(WithoutRequest(waiting, request))
    ensures forall q :: Waits(WithoutRequest(waiting, request), q) ==> Waits(waiting, q)
  {
    if waiting != [] {
      hide Distinct, Waits;
      var first, tail := waiting[0], waiting[1..];
      var rest := WithoutRequest(tail, request);
      assert waiting == [first] + tail;
      DistinctFirst(first, tail);
      WithoutRequestKeeps(tail, request);
      DistinctFirst(first, rest);
      forall q
        ensures Waits([first] + rest, q) ==> Waits(waiting, q)
        ensures Waits(rest, q) ==> Waits(waiting, q)
      {
        WaitsFirst(first, tail, q);
        WaitsFirst(first, rest, q);
      }
      assert [] + rest == rest;
    }
  }

  /** Those waiting may gain octets or leave; nobody joins. */
  lemma WaitingKept(u: Up, v: Up, lost: nat, returned: Returns)
    requires Kept(u, lost, returned) && v == u.(pending := v.pending, cancelled := v.cancelled)
    requires Distinct(v.pending) && forall q :: Waits(v.pending, q) ==> Waits(u.pending, q)
    ensures Kept(v, lost, returned)
  {
    hide Recorded, Accounted, Distinct;
    WaitingIsNoRecord(u, v, lost, returned);
    forall i | 0 <= i < |v.pending|
      ensures Unopened(v, v.pending[i].request)
    {
      assert Waits(v.pending, v.pending[i].request);
      var k :| 0 <= k < |u.pending| && u.pending[k].request == v.pending[i].request;
      assert Unopened(u, u.pending[k].request);
    }
  }

  lemma AppendKept(u: Up, waiting: seq<Pending>, lost: nat, returned: Returns)
    requires Kept(u, lost, returned) && |waiting| == |u.pending|
    requires forall i :: 0 <= i < |waiting| ==> waiting[i].request == u.pending[i].request
    ensures Kept(u.(pending := waiting), lost, returned)
  {
    hide Numbered, Recorded, Accounted;
    forall q | Waits(waiting, q)
      ensures Waits(u.pending, q)
    {
      var i :| 0 <= i < |waiting| && waiting[i].request == q;
      assert u.pending[i].request == q;
    }
    WaitingKept(u, u.(pending := waiting), lost, returned);
  }

  lemma CancelKept(u: Up, request: RequestId, lost: nat, returned: Returns)
    requires Kept(u, lost, returned)
    ensures Kept(u.(pending := WithoutRequest(u.pending, request), cancelled := u.cancelled + {request}), lost, returned)
  {
    hide Numbered, Recorded, Accounted, Distinct;
    WithoutRequestKeeps(u.pending, request);
    WaitingKept(u, u.(pending := WithoutRequest(u.pending, request), cancelled := u.cancelled + {request}), lost, returned);
  }

  /** Anything a client may say keeps the mapping, the record and the account. */
  lemma OnMessageKept(u: Up, m: Message, lost: nat, returned: Returns)
    requires Kept(u, lost, returned) && Honest(u, m)
    ensures Kept(OnMessage(u, m), lost, Returning(returned, u, m))
  {
    hide SendRequest, Release, WriteRst, Forget, EnqueueReady, Unseen, Mutual, Numbered, Recorded, Accounted;
    match m
    case Request(request, client, head, endStream) =>
      SendRequestKept(u, request, client, head, endStream, lost, returned);
    case RequestBody(request, data, endStream) =>
      if request !in u.requests {
        AppendBodyRequests(u.pending, request, data, endStream);
        AppendKept(u, AppendBody(u.pending, request, data, endStream), lost, returned);
      } else {
        var id := u.requests[request];
        if id in u.streams.live {
          var s := u.streams.live[id];
          var t := s.(sendQueue := if data == [] then s.sendQueue else s.sendQueue + [data],
                      sendEndStream := s.sendEndStream || endStream);
          PutKept(u, id, t, lost, returned);
          EnqueueKept(Put(u, id, t), id, lost, returned);
        }
      }
    case RequestEnd(request, fields) =>
      if request !in u.requests {
        AppendTrailersRequests(u.pending, request, fields);
        AppendKept(u, AppendTrailers(u.pending, request, fields), lost, returned);
      } else {
        var id := u.requests[request];
        if id in u.streams.live {
          var t := u.streams.live[id].(pendingTrailers := Some(fields), sendEndStream := true);
          PutKept(u, id, t, lost, returned);
          EnqueueKept(Put(u, id, t), id, lost, returned);
        }
      }
    case Delivered(request, n) =>
      if request in u.requests {
        MappedHasRoute(u, request);
        ReleaseKept(u, u.requests[request], n, lost, returned);
      }
    case Cancel(request, code) =>
      if request !in u.requests {
        CancelKept(u, request, lost, returned);
      } else {
        var id := u.requests[request];
        WriteRstKept(u, id, code, lost, returned);
        ForgetKept(WriteRst(u, id, code), id, lost, returned);
        ForgetKept(u, id, lost, returned);
      }
  }

  // -------------------------------------------------------------------------
  // What the backend says.
  // -------------------------------------------------------------------------

  lemma HeadSentKept(u: Up, id: StreamId, lost: nat, returned: Returns)
    requires Kept(u, lost, returned) && id in u.routes
    ensures Kept(u.(routes := u.routes[id := u.routes[id].(headSent := true)]), lost, returned)
  {
    hide Mutual, Numbered, Recorded, Total, DataTold, Receive.Accounts;
    OwedShape(u, id, u.routes[id].(headSent := true));
    TotalPut(u.routes, Held, id, u.routes[id].(headSent := true));
  }

  lemma OnResponseKept(u: Up, id: StreamId, fields: seq<Header>, endStream: bool, check: HeadCheck, lost: nat, returned: Returns)
    requires Kept(u, lost, returned)
    ensures var r := OnResponse(u, id, fields, endStream, check); r.Ok? ==> Kept(r.value, lost, returned)
  {
    hide Kept, Upstream.ApplyEvent, FailStream, Forget, CL.ValidTrailers;
    if id in u.routes {
      var client := u.routes[id].client.id;
      var marked := u.(routes := u.routes[id := u.routes[id].(headSent := true)]);
      HeadSentKept(u, id, lost, returned);
      TellKept(u, id, CL.Trailers(client, fields), lost, returned);
      TellKept(marked, id, CL.Head(client, fields, endStream), lost, returned);
      FailStreamKept(u, id, BAD_GATEWAY, lost, returned);
      ApplyEventKept(u, id, RecvHeaders(false), lost, returned);
      var told := if u.routes[id].headSent then
                    (if CL.ValidTrailers(fields) then Tell(u, id, CL.Trailers(client, fields)) else u)
                  else Tell(marked, id, CL.Head(client, fields, endStream));
      ApplyEventKept(told, id, RecvHeaders(endStream), lost, returned);
      var applied := Upstream.ApplyEvent(told, id, RecvHeaders(endStream));
      if applied.Ok? {
        ForgetKept(applied.value, id, lost, returned);
      }
    }
  }

  /** Octets recorded against the connection, now held by the route they came for. */
  lemma TellBodyKept(u: Up, id: StreamId, data: seq<Octet>, endStream: bool, lost: nat, returned: Returns)
    requires Mutual(u) && Numbered(u) && Recorded(u) && id in u.routes && |data| < U32_LIMIT
    requires u.connRecv.Accounts(|data| + lost + Total(u.routes, Held))
    requires Tracked(u, returned)
    ensures var held := SaturatingAdd(u.routes[id].pendingConnRelease, |data|);
            Kept(Tell(u.(routes := u.routes[id := u.routes[id].(pendingConnRelease := held)]), id,
                      CL.BodyData(u.routes[id].client.id, data, endStream)), lost, returned)
  {
    hide Mutual, Numbered, Recorded, DataTold, Total, Tracked, Receive.Accounts;
    var event := CL.BodyData(u.routes[id].client.id, data, endStream);
    RoomInRoute(u, id, |data|, lost);
    var route := u.routes[id].(pendingConnRelease := u.routes[id].pendingConnRelease + |data|);
    TotalPut(u.routes, Held, id, route);
    OwedShape(u, id, route);
    var held := u.(routes := u.routes[id := route]);
    ToldShape(held, id, event);
    ToldTracked(u, id, data, endStream, returned);
  }

  /** Octets just recorded fit beside those a route already holds. */
  lemma RoomInRoute(u: Up, id: StreamId, n: nat, lost: nat)
    requires id in u.routes && u.connRecv.Accounts(n + lost + Total(u.routes, Held))
    ensures u.routes[id].pendingConnRelease + n < U32_LIMIT
  {
    TotalSplit(u.routes, Held, id);
  }

  lemma ToldTracked(u: Up, id: StreamId, data: seq<Octet>, endStream: bool, returned: Returns)
    requires Tracked(u, returned) && id in u.routes && u.routes[id].pendingConnRelease + |data| < U32_LIMIT
    ensures var route := u.routes[id].(pendingConnRelease := u.routes[id].pendingConnRelease + |data|);
            Tracked(Tell(u.(routes := u.routes[id := route]), id, CL.BodyData(u.routes[id].client.id, data, endStream)),
                    returned)
  {
    hide DataTold, LastOpened, OpenedIds, InOrder;
    var route := u.routes[id];
    ActSnoc(u.acts, Told(id, route.request, route.client, CL.BodyData(route.client.id, data, endStream)));
  }

  /** Telling a client something changes nobody's route. */
  lemma ToldShape(u: Up, id: StreamId, event: CL.ServiceEvent)
    requires Mutual(u) && Numbered(u) && Recorded(u) && id in u.routes && event.id == u.routes[id].client.id
    ensures var v := Tell(u, id, event); Mutual(v) && Numbered(v) && Recorded(v)
  {
    hide DataTold, LastOpened, OpenedIds, InOrder, Heads;
    ActSnoc(u.acts, Told(id, u.routes[id].request, u.routes[id].client, event));
    var v := Tell(u, id, event);
    forall i | 0 <= i < |v.pending|
      ensures Unopened(v, v.pending[i].request)
    {
      assert Unopened(u, u.pending[i].request);
    }
  }

  lemma SendOnKept(u: Up, id: StreamId, data: seq<Octet>, endStream: bool, lost: nat, returned: Returns)
    requires Mutual(u) && Numbered(u) && Recorded(u) && id in u.routes && |data| < U32_LIMIT
    requires u.connRecv.Accounts(|data| + lost + Total(u.routes, Held))
    requires Tracked(u, returned)
    ensures var r := SendOn(u, id, data, endStream); r.Ok? ==> Kept(r.value, lost, returned)
  {
    hide Kept, Mutual, Numbered, Recorded, Upstream.ApplyEvent, Forget, DataTold, Total, Receive.Accounts;
    TellBodyKept(u, id, data, endStream, lost, returned);
    var held := SaturatingAdd(u.routes[id].pendingConnRelease, |data|);
    var told := Tell(u.(routes := u.routes[id := u.routes[id].(pendingConnRelease := held)]), id,
                     CL.BodyData(u.routes[id].client.id, data, endStream));
    ApplyEventKept(told, id, RecvData(endStream), lost, returned);
    var applied := Upstream.ApplyEvent(told, id, RecvData(endStream));
    if applied.Ok? {
      ForgetKept(applied.value, id, lost, returned);
    }
  }

  /** The stream a DATA frame is for has no room for it, though the connection has. */
  predicate Overspends(u: Up, id: StreamId, data: seq<Octet>)
    requires |data| < U32_LIMIT
  {
    && u.connRecv.Record(|data|).Some?
    && id in u.streams.live && u.streams.live[id].recvWindow.Record(|data|).None?
  }

  /** DATA keeps the account exactly, unless it overspends its stream's window: then
      its octets, recorded already, belong to nobody and never come back. */
  lemma OnDataKept(u: Up, id: StreamId, data: seq<Octet>, endStream: bool, lost: nat, returned: Returns)
    requires Kept(u, lost, returned) && |data| < U32_LIMIT
    ensures var r := Upstream.OnData(u, id, data, endStream);
            r.Ok? ==> Kept(r.value, if Overspends(u, id, data) then lost + |data| else lost, returned)
  {
    hide Mutual, Recorded, DataTold, Total, SendOn, FailStream, WriteRst, ReleaseConn, Receive.Record, Receive.Accounts;
    RecordAccounts(u.connRecv, lost + Total(u.routes, Held), |data|);
    var recorded := u.connRecv.Record(|data|);
    if recorded.Some? {
      var u1 := u.(connRecv := recorded.value);
      MovedRecv(u, recorded.value);
      RecordKeepsInitial(u.connRecv, |data|);
      match u1.streams.Find(id)
      case NeverOpened =>
      case WasClosed => ReleaseConnKept(u1, |data|, lost, returned);
      case Live(s) =>
        var window := s.recvWindow.Record(|data|);
        if window.None? {
          assert Kept(u1, lost + |data|, returned);
          WriteRstKept(u1, id, FlowControlError, lost + |data|, returned);
          FailStreamKept(WriteRst(u1, id, FlowControlError), id, BAD_GATEWAY, lost + |data|, returned);
        } else {
          var u2 := Put(u1, id, s.(recvWindow := window.value));
          PutShape(u1, id, s.(recvWindow := window.value));
          SendOnKept(u2, id, data, endStream, lost, returned);
        }
    }
  }

  lemma MovedRecv(u: Up, window: Receive)
    requires Mutual(u) && Numbered(u) && Recorded(u)
    ensures var v := u.(connRecv := window); Mutual(v) && Numbered(v) && Recorded(v)
  {
    hide LastOpened, OpenedIds, InOrder, Heads;
    var v := u.(connRecv := window);
    forall i | 0 <= i < |v.pending|
      ensures Unopened(v, v.pending[i].request)
    {
      assert Unopened(u, u.pending[i].request);
    }
  }

  lemma PutShape(u: Up, id: StreamId, s: Stream)
    requires Mutual(u) && Numbered(u) && Recorded(u) && id in u.streams.live
    ensures var v := Put(u, id, s); Mutual(v) && Numbered(v) && Recorded(v)
  {
    hide LastOpened, OpenedIds, InOrder, Heads;
    var v := Put(u, id, s);
    forall i | 0 <= i < |v.pending|
      ensures Unopened(v, v.pending[i].request)
    {
      assert Unopened(u, u.pending[i].request);
    }
  }

  lemma OnRstKept(u: Up, id: StreamId, code: ErrorCode, lost: nat, returned: Returns)
    requires Kept(u, lost, returned)
    ensures Kept(Upstream.OnRst(u, id, code), lost, returned)
  {
    hide Kept, Forget;
    if id in u.routes {
      var event := CL.ResetStream(u.routes[id].client.id, code);
      TellKept(u, id, event, lost, returned);
      ForgetKept(Tell(u, id, event), id, lost, returned);
    } else {
      ForgetKept(u, id, lost, returned);
    }
  }

  lemma OnWindowUpdateKept(u: Up, id: StreamId, increment: U32, lost: nat, returned: Returns)
    requires Kept(u, lost, returned)
    ensures var r := Upstream.OnWindowUpdate(u, id, increment); r.Ok? ==> Kept(r.value, lost, returned)
  {
    hide Kept, WriteRst, EnqueueReady;
    WriteRstKept(u, id, ProtocolError, lost, returned);
    WriteRstKept(u, id, FlowControlError, lost, returned);
    var all := u.connSend.Increase(increment);
    if all.Some? {
      SameKept(u, u.(connSend := all.value), lost, returned);
    }
    if id in u.streams.live {
      var credited := u.streams.live[id].sendWindow.Increase(increment);
      if credited.Some? {
        var s := u.streams.live[id].(sendWindow := credited.value);
        PutKept(u, id, s, lost, returned);
        EnqueueKept(Put(u, id, s), id, lost, returned);
      }
    }
  }

  lemma OnSettingsKept(u: Up, params: seq<Param>, lost: nat, returned: Returns)
    requires Kept(u, lost, returned)
    ensures var r := Upstream.OnSettings(u, params); r.Ok? ==> Kept(r.value, lost, returned)
  {
    hide Kept, CL.ApplySettings, LimitIn, Stream.WindowMoved;
    var r := Upstream.OnSettings(u, params);
    if r.Ok? {
      HeadsSnoc(u.written, Settings(true, []));
      SameKept(u, r.value, lost, returned);
    }
  }

  lemma {:induction false} RefuseAllKept(u: Up, waiting: seq<Pending>, lost: nat, returned: Returns)
    requires Kept(u, lost, returned)
    ensures Kept(RefuseAll(u, waiting), lost, returned)
    decreases |waiting|
  {
    if waiting != [] {
      hide Kept;
      var event := CL.ResetStream(waiting[0].client.id, RefusedStream);
      RefuseKept(u, waiting[0].client, event, lost, returned);
      RefuseAllKept(Refuse(u, waiting[0].client, event), waiting[1..], lost, returned);
    }
  }

  lemma {:induction false} AbandonKept(u: Up, ids: seq<StreamId>, lost: nat, returned: Returns)
    requires Kept(u, lost, returned)
    ensures Kept(Abandon(u, ids), lost, returned)
    decreases |ids|
  {
    if ids != [] {
      hide Kept, Upstream.OnRst;
      OnRstKept(u, ids[0], RefusedStream, lost, returned);
      AbandonKept(Upstream.OnRst(u, ids[0], RefusedStream), ids[1..], lost, returned);
    }
  }

  lemma RefusedLetsGo(u: Up, id: StreamId)
    requires u.pending == []
    ensures var v := Upstream.OnRst(u, id, RefusedStream); v.pending == [] && v.routes.Keys == u.routes.Keys - {id}
  {
    hide Receive.Release;
  }

  /** Nobody waiting is started while streams are let go after a GOAWAY. */
  lemma {:induction false} AbandonLetsGo(u: Up, ids: seq<StreamId>)
    requires u.pending == []
    ensures Abandon(u, ids).routes.Keys == u.routes.Keys - (set id | id in ids) && Abandon(u, ids).pending == []
    decreases |ids|
  {
    if ids != [] {
      hide Upstream.OnRst;
      RefusedLetsGo(u, ids[0]);
      AbandonLetsGo(Upstream.OnRst(u, ids[0], RefusedStream), ids[1..]);
      assert (set id | id in ids) == {ids[0]} + (set id | id in ids[1..]);
    }
  }

  lemma {:induction false} RefuseAllShape(u: Up, waiting: seq<Pending>)
    ensures RefuseAll(u, waiting).routes == u.routes && RefuseAll(u, waiting).pending == u.pending
    decreases |waiting|
  {
    if waiting != [] {
      RefuseAllShape(Refuse(u, waiting[0].client, CL.ResetStream(waiting[0].client.id, RefusedStream)), waiting[1..]);
    }
  }

  /** After a GOAWAY no stream past the last has a route, and every other keeps its own. */
  lemma GoAwayLetsGo(u: Up, last: StreamId, above: seq<StreamId>)
    requires Past(u.routes, last, above)
    ensures forall id :: id in OnGoAway(u, last, above).routes <==> id in u.routes && id <= last
    ensures OnGoAway(u, last, above).pending == []
  {
    hide Abandon, RefuseAll;
    var cleared := u.(draining := Some(last), pending := []);
    RefuseAllShape(cleared, u.pending);
    AbandonLetsGo(RefuseAll(cleared, u.pending), above);
  }

  lemma OnGoAwayKept(u: Up, last: StreamId, above: seq<StreamId>, lost: nat, returned: Returns)
    requires Kept(u, lost, returned) && Past(u.routes, last, above)
    ensures Kept(OnGoAway(u, last, above), lost, returned)
  {
    hide Mutual, Numbered, Recorded, Accounted, RefuseAll, Abandon;
    var cleared := u.(draining := Some(last), pending := []);
    WaitingKept(u, u.(pending := []), lost, returned);
    DrainingKept(u.(pending := []), last, lost, returned);
    RefuseAllKept(cleared, u.pending, lost, returned);
    AbandonKept(RefuseAll(cleared, u.pending), above, lost, returned);
  }

  lemma DrainingKept(u: Up, last: StreamId, lost: nat, returned: Returns)
    requires Kept(u, lost, returned)
    ensures Kept(u.(draining := Some(last)), lost, returned)
  {
    hide Kept;
    SameKept(u, u.(draining := Some(last)), lost, returned);
  }

  // -------------------------------------------------------------------------
  // The record only grows.
  // -------------------------------------------------------------------------

  /** Acts are only added, and a request never seen is still never seen. */
  ghost predicate Grew(u: Up, v: Up) {
    && u.acts <= v.acts
    && forall q: RequestId :: Unseen(u, q) ==> Unseen(v, q)
  }

  lemma SameGrew(u: Up, v: Up)
    requires v.acts == u.acts && v.pending == u.pending
    ensures Grew(u, v)
  {
  }

  lemma ActGrew(u: Up, v: Up, a: Act)
    requires v.acts == u.acts + [a] && !a.Opened? && v.pending == u.pending
    ensures Grew(u, v)
  {
  }

  lemma WriteRstGrew(u: Up, id: StreamId, code: ErrorCode)
    ensures Grew(u, WriteRst(u, id, code))
  {
    SameGrew(u, WriteRst(u, id, code));
  }

  lemma GrewThen(u: Up, v: Up, w: Up)
    requires Grew(u, v) && Grew(v, w)
    ensures Grew(u, w)
  {
  }

  lemma OpenStreamGrows(u: Up, request: RequestId, client: Client, head: seq<Header>, endStream: bool)
    ensures var v := OpenStream(u, request, client, head, endStream);
            && u.acts <= v.acts && v.pending == u.pending
            && (forall q: RequestId :: q != request && Unseen(u, q) ==> Unseen(v, q))
  {
    hide EncoderState.Block, EncoderState.After, Table.Apply, Table.OpenLocal;
  }

  lemma SendRequestGrows(u: Up, request: RequestId, client: Client, head: seq<Header>, endStream: bool)
    ensures var v := SendRequest(u, request, client, head, endStream);
            && u.acts <= v.acts
            && (CanOpenLocal(u.streams) ==> v.pending == u.pending)
            && (forall q: RequestId :: q != request && Unseen(u, q) ==> Unseen(v, q))
  {
    hide OpenStream, CanOpenLocal, Table.Apply, Table.OpenLocal;
    OpenStreamGrows(u, request, client, head, endStream);
  }

  lemma AttachGrows(u: Up, p: Pending)
    ensures Attach(u, p).acts == u.acts && Attach(u, p).pending == u.pending
  {
    hide Chunks, AnyEnd;
  }

  lemma {:induction false} DrainPendingGrows(u: Up)
    ensures Grew(u, DrainPending(u))
    decreases |u.pending|
  {
    hide SendRequest, Attach, CanOpenLocal;
    if u.pending != [] && CanOpenLocal(u.streams) {
      var p := u.pending[0];
      var popped := u.(pending := u.pending[1..]);
      SendRequestGrows(popped, p.request, p.client, p.head, p.endStream);
      var sent := SendRequest(popped, p.request, p.client, p.head, p.endStream);
      AttachGrows(sent, p);
      PopFresh(u, sent);
      SameGrew(sent, Attach(sent, p));
      GrewThen(u, sent, Attach(sent, p));
      DrainPendingGrows(Attach(sent, p));
      GrewThen(u, Attach(sent, p), DrainPending(u));
    }
  }

  lemma PopFresh(u: Up, sent: Up)
    requires u.pending != [] && u.acts <= sent.acts
    requires forall q: RequestId :: q != u.pending[0].request && Unseen(u.(pending := u.pending[1..]), q) ==> Unseen(sent, q)
    ensures Grew(u, sent)
  {
    forall q: RequestId | Unseen(u, q)
      ensures Unseen(sent, q)
    {
      assert u.pending[0].request != q;
      assert Unseen(u.(pending := u.pending[1..]), q);
    }
  }

  lemma ForgetGrows(u: Up, id: StreamId)
    ensures Grew(u, Forget(u, id))
  {
    hide DrainPending, Receive.Release, Grew;
    var retired := RetireStream(u, id);
    if id in u.routes {
      var dropped := DropRoute(retired, id);
      ActGrew(u, dropped, Forgot(id));
      var credited := ReleaseConn(dropped, u.routes[id].pendingConnRelease);
      SameGrew(dropped, credited);
      GrewThen(u, dropped, credited);
      DrainPendingGrows(dropped);
      GrewThen(u, dropped, DrainPending(dropped));
      DrainPendingGrows(credited);
      GrewThen(u, credited, DrainPending(credited));
    } else {
      SameGrew(u, retired);
      DrainPendingGrows(retired);
      GrewThen(u, retired, DrainPending(retired));
    }
  }

  lemma TellGrows(u: Up, id: StreamId, event: CL.ServiceEvent)
    requires id in u.routes
    ensures Grew(u, Tell(u, id, event))
  {
    ActGrew(u, Tell(u, id, event), Told(id, u.routes[id].request, u.routes[id].client, event));
  }

  lemma ForgetAfter(u: Up, v: Up, id: StreamId)
    requires Grew(u, v)
    ensures Grew(u, Forget(v, id))
  {
    hide Forget, Grew;
    ForgetGrows(v, id);
    GrewThen(u, v, Forget(v, id));
  }

  lemma FailStreamGrows(u: Up, id: StreamId, status: seq<Header>)
    ensures Grew(u, FailStream(u, id, status))
  {
    hide Forget, Grew;
    var told := u;
    if id in u.routes {
      var client := u.routes[id].client.id;
      var event := if u.routes[id].headSent then CL.ResetStream(client, InternalError) else CL.Head(client, status, true);
      told := Tell(u, id, event);
      TellGrows(u, id, event);
    } else {
      SameGrew(u, u);
    }
    ForgetAfter(u, told, id);
    SameGrew(told, WriteRst(told, id, ErrorCode.Cancel));
    GrewThen(u, told, WriteRst(told, id, ErrorCode.Cancel));
    ForgetAfter(u, WriteRst(told, id, ErrorCode.Cancel), id);
  }

  lemma ApplyEventGrows(u: Up, v: Up, id: StreamId, event: StreamEvent)
    requires Grew(u, v)
    ensures var r := Upstream.ApplyEvent(v, id, event); r.Ok? ==> Grew(u, r.value)
  {
    hide FailStream, Transition, Grew;
    var r := Upstream.ApplyEvent(v, id, event);
    if r.Ok? {
      if v.streams.Apply(id, event).1.Ok? {
        SameGrew(v, r.value);
      } else {
        FailStreamGrows(v, id, BAD_GATEWAY);
      }
      GrewThen(u, v, r.value);
    }
  }

  lemma UpSendBodyGrows(u: Up, id: StreamId, t: Taken)
    requires id in u.streams.live && |t.chunk| < U32_LIMIT
    ensures var r := Upstream.SendBody(u, id, t); r.Ok? ==> Grew(u, r.value)
  {
    hide Upstream.ApplyEvent, Grew;
    var own, all := t.rest.sendWindow.Consume(|t.chunk|), u.connSend.Consume(|t.chunk|);
    if t.chunk == [] || (own.Some? && all.Some?) {
      var spent := if t.chunk == [] then t.rest else t.rest.(sendWindow := own.value);
      var u1 := Put(u, id, spent);
      var u2 := if t.chunk == [] then u1 else u1.(connSend := all.value);
      SameGrew(u, u2);
      var u3 := QueueFrame(u2, Data(id, t.chunk, t.endStream));
      SameGrew(u, u3);
      ApplyEventGrows(u, u3, id, SendData(t.endStream));
    }
  }

  lemma VisitGrows(u: Up, id: StreamId)
    ensures var r := Upstream.VisitReady(u, id); r.Ok? ==> Grew(u, r.value)
  {
    hide Upstream.SendBody, Upstream.ApplyEvent, Take, Stream.PendingSend, EncoderState.Block, EncoderState.After, Grew;
    SameGrew(u, u);
    if id in u.streams.live {
      var s := u.streams.live[id];
      var budget := Upstream.Budget(u, s);
      var t := Take(s, budget);
      SameGrew(u, Put(u, id, s.(queued := false)));
      SameGrew(u, Put(u, id, t.rest));
      TakeWithin(s, budget);
      UpSendBodyGrows(u, id, t);
      var sent := Upstream.SendBody(u, id, t);
      if sent.Ok? {
        var u1 := sent.value;
        var u2 := u1;
        if t.chunk != [] && id in u1.routes {
          var event := CL.BodyAccepted(u1.routes[id].client.id, |t.chunk|);
          u2 := Tell(u1, id, event);
          TellGrows(u1, id, event);
          GrewThen(u, u1, u2);
        }
        if t.trailers.Some? {
          var block := u2.encoder.Block(t.trailers.value);
          var queued := QueueFrame(u2.(encoder := u2.encoder.After(t.trailers.value)), Headers(id, block, true, true));
          SameGrew(u2, queued);
          GrewThen(u, u2, queued);
          ApplyEventGrows(u, queued, id, SendHeaders(true));
        }
      }
    }
  }

  lemma WaitingGrows(u: Up, v: Up)
    requires v.acts == u.acts && forall q :: Waits(v.pending, q) ==> Waits(u.pending, q)
    ensures Grew(u, v)
  {
    forall q: RequestId | Unseen(u, q)
      ensures Unseen(v, q)
    {
      forall i | 0 <= i < |v.pending|
        ensures v.pending[i].request != q
      {
        assert Waits(v.pending, v.pending[i].request);
      }
    }
  }

  lemma SameWaits(a: seq<Pending>, b: seq<Pending>)
    requires |a| == |b| && forall i :: 0 <= i < |a| ==> a[i].request == b[i].request
    ensures forall q :: Waits(b, q) ==> Waits(a, q)
  {
    forall q | Waits(b, q)
      ensures Waits(a, q)
    {
      var i :| 0 <= i < |b| && b[i].request == q;
      assert a[i].request == q;
    }
  }

  /** Every message but a request leaves the never seen unseen. */
  lemma OnMessageGrows(u: Up, m: Message)
    requires Distinct(u.pending)
    ensures u.acts <= OnMessage(u, m).acts
    ensures forall q: RequestId :: (m.Request? ==> q != m.request) && Unseen(u, q) ==> Unseen(OnMessage(u, m), q)
  {
    hide SendRequest, Forget, Unseen, WriteRst, Distinct, OnMessage;
    if m.Request? {
      SendRequestGrows(u, m.request, m.client, m.head, m.endStream);
      RequestMessage(u, m);
    } else {
      OtherMessageGrows(u, m);
    }
  }

  lemma RequestMessage(u: Up, m: Message)
    requires m.Request?
    ensures OnMessage(u, m) == SendRequest(u, m.request, m.client, m.head, m.endStream)
  {
    hide SendRequest;
  }

  lemma ReleaseGrew(u: Up, id: StreamId, n: U32)
    ensures Grew(u, Release(u, id, n))
  {
    hide Receive.Release;
    SameGrew(u, Release(u, id, n));
  }

  lemma EditGrew(u: Up, id: StreamId, s: Stream)
    requires id in u.streams.live
    ensures Grew(u, EnqueueReady(Put(u, id, s), id))
  {
    SameGrew(u, EnqueueReady(Put(u, id, s), id));
  }

  lemma OtherMessageGrows(u: Up, m: Message)
    requires Distinct(u.pending) && !m.Request?
    ensures Grew(u, OnMessage(u, m))
  {
    hide Forget, Release, EnqueueReady, AppendBody, AppendTrailers, WithoutRequest, WriteRst, Distinct, Grew, Waits;
    var v := OnMessage(u, m);
    SameGrew(u, u);
    match m
    case RequestBody(request, data, endStream) =>
      if request !in u.requests {
        AppendBodyRequests(u.pending, request, data, endStream);
        SameWaits(u.pending, v.pending);
        WaitingGrows(u, v);
      } else if u.requests[request] in u.streams.live {
        var s := u.streams.live[u.requests[request]];
        EditGrew(u, u.requests[request], s.(sendQueue := if data == [] then s.sendQueue else s.sendQueue + [data],
                                            sendEndStream := s.sendEndStream || endStream));
      }
    case RequestEnd(request, fields) =>
      if request !in u.requests {
        AppendTrailersRequests(u.pending, request, fields);
        SameWaits(u.pending, v.pending);
        WaitingGrows(u, v);
      } else if u.requests[request] in u.streams.live {
        var s := u.streams.live[u.requests[request]];
        EditGrew(u, u.requests[request], s.(pendingTrailers := Some(fields), sendEndStream := true));
      }
    case Delivered(request, n) =>
      if request in u.requests {
        ReleaseGrew(u, u.requests[request], n);
      }
    case Cancel(request, code) =>
      if request !in u.requests {
        WithoutRequestKeeps(u.pending, request);
        WaitingGrows(u, v);
      } else {
        CancelGrows(u, u.requests[request], code);
      }
  }

  lemma CancelGrows(u: Up, id: StreamId, code: ErrorCode)
    ensures Grew(u, Forget(u, id)) && Grew(u, Forget(WriteRst(u, id, code), id))
  {
    hide Forget, Grew, WriteRst;
    SameGrew(u, u);
    ForgetAfter(u, u, id);
    WriteRstGrew(u, id, code);
    ForgetAfter(u, WriteRst(u, id, code), id);
  }

  lemma OnResponseGrows(u: Up, id: StreamId, fields: seq<Header>, endStream: bool, check: HeadCheck)
    ensures var r := OnResponse(u, id, fields, endStream, check); r.Ok? ==> Grew(u, r.value)
  {
    hide Upstream.ApplyEvent, FailStream, Forget, CL.ValidTrailers, Grew;
    SameGrew(u, u);
    if id in u.routes {
      var client := u.routes[id].client.id;
      var marked := u.(routes := u.routes[id := u.routes[id].(headSent := true)]);
      FailStreamGrows(u, id, BAD_GATEWAY);
      ApplyEventGrows(u, u, id, RecvHeaders(false));
      TellGrows(u, id, CL.Trailers(client, fields));
      SameGrew(u, marked);
      TellGrows(marked, id, CL.Head(client, fields, endStream));
      GrewThen(u, marked, Tell(marked, id, CL.Head(client, fields, endStream)));
      var told := if u.routes[id].headSent then
                    (if CL.ValidTrailers(fields) then Tell(u, id, CL.Trailers(client, fields)) else u)
                  else Tell(marked, id, CL.Head(client, fields, endStream));
      ApplyEventGrows(u, told, id, RecvHeaders(endStream));
      var applied := Upstream.ApplyEvent(told, id, RecvHeaders(endStream));
      if applied.Ok? {
        ForgetAfter(u, applied.value, id);
      }
    }
  }

  lemma OnDataGrows(u: Up, id: StreamId, data: seq<Octet>, endStream: bool)
    requires |data| < U32_LIMIT
    ensures var r := Upstream.OnData(u, id, data, endStream); r.Ok? ==> Grew(u, r.value)
  {
    hide SendOn, FailStream, Receive.Record, Receive.Release, Grew;
    var recorded := u.connRecv.Record(|data|);
    if recorded.Some? {
      var u1 := u.(connRecv := recorded.value);
      SameGrew(u, ReleaseConn(u1, |data|));
      var reset := WriteRst(u1, id, FlowControlError);
      SameGrew(u, reset);
      FailStreamGrows(reset, id, BAD_GATEWAY);
      GrewThen(u, reset, FailStream(reset, id, BAD_GATEWAY));
      if id in u.streams.live {
        var window := u.streams.live[id].recvWindow.Record(|data|);
        if window.Some? {
          var u2 := Put(u1, id, u.streams.live[id].(recvWindow := window.value));
          SameGrew(u, u2);
          SendOnGrows(u2, id, data, endStream);
          if SendOn(u2, id, data, endStream).Ok? {
            GrewThen(u, u2, SendOn(u2, id, data, endStream).value);
          }
        }
      }
    }
  }

  lemma SendOnGrows(u: Up, id: StreamId, data: seq<Octet>, endStream: bool)
    requires |data| < U32_LIMIT
    ensures var r := SendOn(u, id, data, endStream); r.Ok? ==> Grew(u, r.value)
  {
    hide Upstream.ApplyEvent, Forget, Grew;
    var told := u;
    SameGrew(u, u);
    if id in u.routes {
      var held := SaturatingAdd(u.routes[id].pendingConnRelease, |data|);
      var owed := u.(routes := u.routes[id := u.routes[id].(pendingConnRelease := held)]);
      var event := CL.BodyData(u.routes[id].client.id, data, endStream);
      told := Tell(owed, id, event);
      SameGrew(u, owed);
      TellGrows(owed, id, event);
      GrewThen(u, owed, told);
    }
    ApplyEventGrows(u, told, id, RecvData(endStream));
    var applied := Upstream.ApplyEvent(told, id, RecvData(endStream));
    if applied.Ok? {
      ForgetAfter(u, applied.value, id);
    }
  }

  lemma OnRstGrows(u: Up, id: StreamId, code: ErrorCode)
    ensures Grew(u, Upstream.OnRst(u, id, code))
  {
    hide Forget, Grew;
    SameGrew(u, u);
    if id in u.routes {
      TellGrows(u, id, CL.ResetStream(u.routes[id].client.id, code));
      ForgetAfter(u, Tell(u, id, CL.ResetStream(u.routes[id].client.id, code)), id);
    } else {
      ForgetAfter(u, u, id);
    }
  }

  lemma {:induction false} RefuseAllGrows(u: Up, waiting: seq<Pending>)
    ensures Grew(u, RefuseAll(u, waiting))
    decreases |waiting|
  {
    hide Grew;
    if waiting == [] {
      SameGrew(u, u);
    } else {
      var event := CL.ResetStream(waiting[0].client.id, RefusedStream);
      var v := Refuse(u, waiting[0].client, event);
      ActGrew(u, v, TurnedAway(waiting[0].client, event));
      RefuseAllGrows(v, waiting[1..]);
      GrewThen(u, v, RefuseAll(v, waiting[1..]));
    }
  }

  lemma {:induction false} AbandonGrows(u: Up, ids: seq<StreamId>)
    ensures Grew(u, Abandon(u, ids))
    decreases |ids|
  {
    hide Upstream.OnRst, Grew;
    if ids == [] {
      SameGrew(u, u);
    } else {
      var v := Upstream.OnRst(u, ids[0], RefusedStream);
      OnRstGrows(u, ids[0], RefusedStream);
      AbandonGrows(v, ids[1..]);
      GrewThen(u, v, Abandon(v, ids[1..]));
    }
  }

  lemma OnGoAwayGrows(u: Up, last: StreamId, above: seq<StreamId>)
    requires Past(u.routes, last, above)
    ensures Grew(u, OnGoAway(u, last, above))
  {
    hide RefuseAll, Abandon;
    var cleared := u.(draining := Some(last), pending := []);
    assert Grew(u, cleared);
    RefuseAllGrows(cleared, u.pending);
    var told := RefuseAll(cleared, u.pending);
    GrewThen(u, cleared, told);
    AbandonGrows(told, above);
    GrewThen(u, told, Abandon(told, above));
  }

  lemma LiveStaysOpened(u: Up, v: Up, id: StreamId, lost: nat, returned: Returns)
    requires Kept(u, lost, returned) && Kept(v, lost, returned) && id in u.streams.live && Grew(u, v)
    ensures id in OpenedIds(v.acts)
  {
    hide Mutual, Accounted;
    var a := Act.Opened(id, u.routes[id].request, u.routes[id].client);
    assert a in u.acts && a in v.acts;
    OpenedBelowLast(v.acts);
  }

  // -------------------------------------------------------------------------
  // Sending request bodies.
  // -------------------------------------------------------------------------

  lemma UpSendBodyKept(u: Up, id: StreamId, t: Taken, lost: nat, returned: Returns)
    requires Kept(u, lost, returned) && id in u.streams.live && |t.chunk| < U32_LIMIT
    ensures var r := Upstream.SendBody(u, id, t); r.Ok? ==> Kept(r.value, lost, returned)
  {
    hide Kept, Upstream.ApplyEvent, Heads;
    var own, all := t.rest.sendWindow.Consume(|t.chunk|), u.connSend.Consume(|t.chunk|);
    if t.chunk == [] || (own.Some? && all.Some?) {
      var spent := if t.chunk == [] then t.rest else t.rest.(sendWindow := own.value);
      PutKept(u, id, spent, lost, returned);
      var u1 := Put(u, id, spent);
      var u2 := if t.chunk == [] then u1 else u1.(connSend := all.value);
      SameKept(u1, u2, lost, returned);
      QueueKept(u2, Data(id, t.chunk, t.endStream), lost, returned);
      ApplyEventKept(QueueFrame(u2, Data(id, t.chunk, t.endStream)), id, SendData(t.endStream), lost, returned);
    }
  }

  lemma VisitKept(u: Up, id: StreamId, lost: nat, returned: Returns)
    requires Kept(u, lost, returned)
    ensures var r := Upstream.VisitReady(u, id); r.Ok? ==> Kept(r.value, lost, returned)
  {
    hide Kept, Upstream.SendBody, Upstream.ApplyEvent, Take, Stream.PendingSend, EncoderState.Block, EncoderState.After, OpenedIds;
    if id in u.streams.live {
      var s := u.streams.live[id];
      var budget := Upstream.Budget(u, s);
      var t := Take(s, budget);
      PutKept(u, id, s.(queued := false), lost, returned);
      PutKept(u, id, t.rest, lost, returned);
      TakeWithin(s, budget);
      UpSendBodyKept(u, id, t, lost, returned);
      var sent := Upstream.SendBody(u, id, t);
      if sent.Ok? {
        var u1 := sent.value;
        var u2 := if t.chunk != [] && id in u1.routes then
                    Tell(u1, id, CL.BodyAccepted(u1.routes[id].client.id, |t.chunk|))
                  else u1;
        if id in u1.routes && t.chunk != [] {
          TellKept(u1, id, CL.BodyAccepted(u1.routes[id].client.id, |t.chunk|), lost, returned);
        }
        if t.trailers.Some? {
          UpSendBodyGrows(u, id, t);
          LiveStaysOpened(u, u2, id, lost, returned);
          TrailersKept(u2, id, t.trailers.value, lost, returned);
        }
      }
    }
  }

  /** HEADERS for trailers go out on a stream that opened long before. */
  lemma TrailersKept(u: Up, id: StreamId, fields: seq<Header>, lost: nat, returned: Returns)
    requires Kept(u, lost, returned)
    ensures var queued := QueueFrame(u.(encoder := u.encoder.After(fields)), Headers(id, u.encoder.Block(fields), true, true));
            var r := Upstream.ApplyEvent(queued, id, SendHeaders(true));
            r.Ok? && id in OpenedIds(u.acts) ==> Kept(r.value, lost, returned)
  {
    hide Mutual, Numbered, Accounted, Upstream.ApplyEvent, EncoderState.Block, EncoderState.After;
    var u1 := u.(encoder := u.encoder.After(fields));
    var queued := QueueFrame(u1, Headers(id, u.encoder.Block(fields), true, true));
    if id in OpenedIds(u.acts) {
      HeadsSnoc(u.written, Headers(id, u.encoder.Block(fields), true, true));
      SameKept(u, queued, lost, returned);
      ApplyEventKept(queued, id, SendHeaders(true), lost, returned);
    }
  }

  // -------------------------------------------------------------------------
  // Whole runs.
  // -------------------------------------------------------------------------

  datatype UpStep =
    | Hears(message: Message)
    | ResponseArrives(id: StreamId, fields: seq<Header>, endStream: bool, check: HeadCheck)
    | OversizedArrives(id: StreamId)
    | BodyArrives(id: StreamId, data: seq<Octet>, endStream: bool)
    | ResetArrives(id: StreamId, code: ErrorCode)
    | CreditArrives(id: StreamId, increment: U32)
    | SettingsArrive(params: seq<Param>)
    | GoAwayArrives(last: StreamId, above: seq<StreamId>)
    | Visits(id: StreamId)

  predicate Fits(u: Up, s: UpStep) {
    match s
    case BodyArrives(_, data, _) => |data| < U32_LIMIT
    case GoAwayArrives(last, above) => Past(u.routes, last, above)
    case _ => true
  }

  function Advance(u: Up, s: UpStep): Onward
    requires Fits(u, s)
  {
    match s
    case Hears(message) => Ok(OnMessage(u, message))
    case ResponseArrives(id, fields, endStream, check) => OnResponse(u, id, fields, endStream, check)
    case OversizedArrives(id) => Ok(FailStream(u, id, BAD_GATEWAY))
    case BodyArrives(id, data, endStream) => Upstream.OnData(u, id, data, endStream)
    case ResetArrives(id, code) => Ok(Upstream.OnRst(u, id, code))
    case CreditArrives(id, increment) => Upstream.OnWindowUpdate(u, id, increment)
    case SettingsArrive(params) => Upstream.OnSettings(u, params)
    case GoAwayArrives(last, above) => Ok(OnGoAway(u, last, above))
    case Visits(id) => Upstream.VisitReady(u, id)
  }

  /** What the invariant is told of a run: octets overspent, and octets come back. */
  datatype Tally = Tally(lost: nat, returned: Returns)

  function Tallied(t: Tally, u: Up, s: UpStep): Tally
    requires Fits(u, s)
  {
    match s
    case Hears(message) => t.(returned := Returning(t.returned, u, message))
    case BodyArrives(id, data, _) => if Overspends(u, id, data) then t.(lost := t.lost + |data|) else t
    case _ => t
  }

  lemma DoKept(u: Up, s: UpStep, t: Tally)
    requires Fits(u, s) && Kept(u, t.lost, t.returned) && (s.Hears? ==> Honest(u, s.message))
    ensures Advance(u, s).Ok? ==> var t1 := Tallied(t, u, s); Kept(Advance(u, s).value, t1.lost, t1.returned)
  {
    hide Kept, OnMessage, OnResponse, FailStream, Upstream.OnData, Upstream.OnRst, Upstream.OnWindowUpdate,
      Upstream.OnSettings, OnGoAway, Upstream.VisitReady, Honest, Overspends, Returning;
    match s
    case Hears(message) => OnMessageKept(u, message, t.lost, t.returned);
    case ResponseArrives(id, fields, endStream, check) =>
      OnResponseKept(u, id, fields, endStream, check, t.lost, t.returned);
    case OversizedArrives(id) => FailStreamKept(u, id, BAD_GATEWAY, t.lost, t.returned);
    case BodyArrives(id, data, endStream) => OnDataKept(u, id, data, endStream, t.lost, t.returned);
    case ResetArrives(id, code) => OnRstKept(u, id, code, t.lost, t.returned);
    case CreditArrives(id, increment) => OnWindowUpdateKept(u, id, increment, t.lost, t.returned);
    case SettingsArrive(params) => OnSettingsKept(u, params, t.lost, t.returned);
    case GoAwayArrives(last, above) => OnGoAwayKept(u, last, above, t.lost, t.returned);
    case Visits(id) => VisitKept(u, id, t.lost, t.returned);
  }

  lemma DoGrows(u: Up, s: UpStep)
    requires Fits(u, s) && !s.Hears?
    ensures Advance(u, s).Ok? ==> Grew(u, Advance(u, s).value)
  {
    hide OnResponse, FailStream, Upstream.OnData, Upstream.OnRst, OnGoAway, Upstream.VisitReady, CL.ApplySettings, LimitIn,
      Stream.WindowMoved, Grew;
    match s
    case ResponseArrives(id, fields, endStream, check) => OnResponseGrows(u, id, fields, endStream, check);
    case OversizedArrives(id) => FailStreamGrows(u, id, BAD_GATEWAY);
    case BodyArrives(id, data, endStream) => OnDataGrows(u, id, data, endStream);
    case ResetArrives(id, code) => OnRstGrows(u, id, code);
    case CreditArrives(_, _) =>
      if Advance(u, s).Ok? {
        SameGrew(u, Advance(u, s).value);
      }
    case SettingsArrive(_) =>
      if Advance(u, s).Ok? {
        SameGrew(u, Advance(u, s).value);
      }
    case GoAwayArrives(last, above) => OnGoAwayGrows(u, last, above);
    case Visits(id) => VisitGrows(u, id);
  }

  /** A run that clients and connection can have: every step fits where it is taken
      and every client speaks for itself. */
  ghost predicate Plausible(u: Up, steps: seq<UpStep>)
    decreases |steps|
  {
    steps == [] ||
    (&& Fits(u, steps[0]) && (steps[0].Hears? ==> Honest(u, steps[0].message))
     && (Advance(u, steps[0]).Ok? ==> Plausible(Advance(u, steps[0]).value, steps[1..])))
  }

  datatype Ending = Ending(up: Up, tally: Tally)

  ghost function DoAll(u: Up, t: Tally, steps: seq<UpStep>): Result<Ending, ErrorCode>
    requires Plausible(u, steps)
    decreases |steps|
  {
    if steps == [] then Ok(Ending(u, t))
    else
      var next :- Advance(u, steps[0]);
      DoAll(next, Tallied(t, u, steps[0]), steps[1..])
  }

  lemma {:induction false} AlwaysKept(u: Up, t: Tally, steps: seq<UpStep>)
    requires Kept(u, t.lost, t.returned) && Plausible(u, steps)
    ensures DoAll(u, t, steps).Ok? ==>
              var end := DoAll(u, t, steps).value;
              Kept(end.up, end.tally.lost, end.tally.returned) && end.tally.returned.window == t.returned.window
    decreases |steps|
  {
    if steps != [] {
      hide Kept, Advance, Honest;
      DoKept(u, steps[0], t);
      if Advance(u, steps[0]).Ok? {
        AlwaysKept(Advance(u, steps[0]).value, Tallied(t, u, steps[0]), steps[1..]);
      }
    }
  }

  function NewUp(maxPending: nat, window: CL.WindowSize, streamWindow: CL.WindowSize): Up {
    Up(NewTable(U32_LIMIT - 1, DEFAULT_INITIAL_WINDOW_SIZE, streamWindow), map[], map[], {}, [], maxPending, 1, None, [],
       Window(DEFAULT_INITIAL_WINDOW_SIZE), Flow.Opened(window),
       CL.PeerSettings(4096, DEFAULT_INITIAL_WINDOW_SIZE, CL.DEFAULT_MAX_FRAME_SIZE),
       EncoderState(HpackTable.Table([], 4096), None, true), [], [])
  }

  lemma NewUpKept(maxPending: nat, window: CL.WindowSize, streamWindow: CL.WindowSize)
    ensures Kept(NewUp(maxPending, window, streamWindow), 0, Returns(map[], window))
  {
  }

  /** An act at a place in an orderly record is in order there. */
  lemma {:induction false} InOrderAt(acts: seq<Act>, i: nat)
    requires InOrder(acts) && i < |acts|
    ensures Follows(acts[..i], acts[i])
    decreases |acts|
  {
    if i < |acts| - 1 {
      var past := acts[..|acts| - 1];
      InOrderAt(past, i);
      assert past[..i] == acts[..i];
    }
  }

  /** Remapping is safe over every run: request HEADERS reach the wire with strictly
      increasing odd identifiers, however clients interleave; requests and routes
      name each other; what is said of a stream is said to the client it was opened
      for and to nobody once it has been let go; and no identifier is opened twice or
      is live again once let go. */
  lemma {:induction false} RemappingIsSafe(maxPending: nat, window: CL.WindowSize, streamWindow: CL.WindowSize, steps: seq<UpStep>)
    requires Plausible(NewUp(maxPending, window, streamWindow), steps)
    ensures var end := DoAll(NewUp(maxPending, window, streamWindow), Tally(0, Returns(map[], window)), steps);
            end.Ok? ==>
              var u := end.value.up;
              && StrictlyIncreasing(Heads(u.written), 0)
              && (forall id :: id in u.routes ==> u.routes[id].request in u.requests && u.requests[u.routes[id].request] == id)
              && (forall q :: q in u.requests ==> u.requests[q] in u.routes && u.routes[u.requests[q]].request == q)
              && (forall i :: 0 <= i < |u.acts| ==> Follows(u.acts[..i], u.acts[i]))
              && (forall id :: Forgot(id) in u.acts ==> id !in u.routes && id !in u.streams.live)
  {
    hide DoAll, Plausible, Follows, Heads;
    var u0 := NewUp(maxPending, window, streamWindow);
    NewUpKept(maxPending, window, streamWindow);
    AlwaysKept(u0, Tally(0, Returns(map[], window)), steps);
    var end := DoAll(u0, Tally(0, Returns(map[], window)), steps);
    if end.Ok? {
      var u := end.value.up;
      OpenedIdsIncrease(u.acts);
      forall i | 0 <= i < |u.acts|
        ensures Follows(u.acts[..i], u.acts[i])
      {
        InOrderAt(u.acts, i);
      }
    }
  }

  /** And the account: whatever the backend may not send is held by a route, waiting
      to be announced, or was overspent by the backend itself. */
  lemma {:induction false} CreditIsConserved(maxPending: nat, window: CL.WindowSize, streamWindow: CL.WindowSize, steps: seq<UpStep>)
    requires Plausible(NewUp(maxPending, window, streamWindow), steps)
    ensures var end := DoAll(NewUp(maxPending, window, streamWindow), Tally(0, Returns(map[], window)), steps);
            end.Ok? ==>
              var u := end.value.up;
              && u.connRecv.window.available + u.connRecv.unreleased + Total(u.routes, Held) + end.value.tally.lost
                 == window
              && u.connRecv.window.available >= 0
  {
    hide DoAll, Plausible, Total;
    NewUpKept(maxPending, window, streamWindow);
    AlwaysKept(NewUp(maxPending, window, streamWindow), Tally(0, Returns(map[], window)), steps);
  }
}
