/** A connection to a backend, shared by many clients: how requests become streams
    of its own, where what the backend says is sent on to, and what credit each
    response holds until its client has taken it. */
module Upstream {
  import opened Octets
  import opened Frame
  import opened Flow
  import opened HpackCodec
  import opened Streams
  import opened ClientLeg
  import opened Scheduler

  const MAX_LOCAL_STREAM_ID: StreamId := 0x7fff_ffff

  type RequestId = nat

  /** One stream of one client connection, as the upstream side addresses it. */
  datatype Client = Client(channel: nat, id: StreamId)

  /** What a client connection asks for. Messages name a request by the identifier
      its lease was given, since no stream exists until the request is sent. */
  datatype Message =
    | Request(request: RequestId, client: Client, head: seq<Header>, endStream: bool)
    | RequestBody(request: RequestId, data: seq<Octet>, endStream: bool)
    | RequestEnd(request: RequestId, fields: seq<Header>)
    | Delivered(request: RequestId, n: U32)
    | Cancel(request: RequestId, code: ErrorCode)

  datatype Route = Route(client: Client, request: RequestId, headSent: bool, pendingConnRelease: U32)

  /** A request waiting for a stream, with what its client has sent meanwhile. */
  datatype Pending = Pending(
    request: RequestId, client: Client, head: seq<Header>, endStream: bool,
    body: seq<(seq<Octet>, bool)>, trailers: Option<seq<Header>>)

  /** What happened, oldest first. */
  datatype Act =
    | Opened(id: StreamId, request: RequestId, client: Client)
    | Told(id: StreamId, request: RequestId, client: Client, event: ServiceEvent)
    | Forgot(id: StreamId)
    | TurnedAway(client: Client, event: ServiceEvent)

  datatype Up = Up(
    streams: Table,
    routes: map<StreamId, Route>,
    requests: map<RequestId, StreamId>,
    cancelled: set<RequestId>,
    pending: seq<Pending>,
    maxPending: nat,
    nextId: U32,
    draining: Option<StreamId>,
    ready: seq<StreamId>,
    connSend: Window,
    connRecv: Receive,
    peer: PeerSettings,
    encoder: EncoderState,
    written: seq<Frame>,
    acts: seq<Act>)

  type Onward = Result<Up, ErrorCode>

  predicate CanOpenLocal(t: Table) {
    |t.live| < t.maxConcurrent && t.highestLocal < MAX_LOCAL_STREAM_ID
  }

  // -------------------------------------------------------------------------
  // The steps handlers are made of.
  // -------------------------------------------------------------------------

  function Put(u: Up, id: StreamId, s: Stream): Up
    requires id in u.streams.live
  {
    u.(streams := u.streams.Put(id, s))
  }

  function QueueFrame(u: Up, f: Frame): Up {
    u.(written := u.written + [f])
  }

  /** An event on its way to the client a stream was opened for. */
  function Tell(u: Up, id: StreamId, event: ServiceEvent): Up
    requires id in u.routes
  {
    u.(acts := u.acts + [Told(id, u.routes[id].request, u.routes[id].client, event)])
  }

  function Refuse(u: Up, client: Client, event: ServiceEvent): Up {
    u.(acts := u.acts + [TurnedAway(client, event)])
  }

  /** Credit the connection window, announcing it when enough has gathered. */
  function ReleaseConn(u: Up, n: U32): Up {
    var (window, update) := u.connRecv.Release(n);
    var credited := u.(connRecv := window);
    if update.None? then credited else QueueFrame(credited, WindowUpdate(CONNECTION, update.value))
  }

  /** Out of the stream table and the ring; nothing is parked to be reclaimed. */
  function RetireStream(u: Up, id: StreamId): Up {
    u.(streams := u.streams.Retire(id).TakeReclaimed().0, ready := Without(u.ready, id))
  }

  function WriteRst(u: Up, id: StreamId, code: ErrorCode): Up {
    QueueFrame(RetireStream(u, id), RstStream(id, code))
  }

  function EnqueueReady(u: Up, id: StreamId): Up {
    if id !in u.streams.live || u.streams.live[id].queued || !u.streams.live[id].HasPendingSend() then u
    else Put(u, id, u.streams.live[id].(queued := true)).(ready := u.ready + [id])
  }

  /** Give a request its stream, the next odd identifier, at the moment its HEADERS
      is queued. An idle stream always takes the event. */
  function OpenStream(u: Up, request: RequestId, client: Client, head: seq<Header>, endStream: bool): Up {
    var id := StreamIdFrom(u.nextId);
    var (table, admitted) := u.streams.OpenLocal(id);
    var moved := u.(nextId := SaturatingAdd(u.nextId, 2));
    if admitted.Err? then Refuse(moved, client, ResetStream(client.id, RefusedStream))
    else
      var opened1 := moved.(streams := table,
                            routes := u.routes[id := Route(client, request, false, 0)],
                            requests := u.requests[request := id],
                            acts := u.acts + [Opened(id, request, client)]);
      var block := u.encoder.Block(head);
      var sent := QueueFrame(opened1.(encoder := u.encoder.After(head)), Headers(id, block, endStream, true));
      sent.(streams := table.Apply(id, SendHeaders(endStream)).0)
  }

  /** Start a request, keep it waiting, or turn it away. */
  function SendRequest(u: Up, request: RequestId, client: Client, head: seq<Header>, endStream: bool): Up {
    if request in u.cancelled then u.(cancelled := u.cancelled - {request})
    else if u.draining.Some? then Refuse(u, client, ResetStream(client.id, RefusedStream))
    else if !CanOpenLocal(u.streams) then
      if |u.pending| >= u.maxPending then Refuse(u, client, Shed(client.id))
      else u.(pending := u.pending + [Pending(request, client, head, endStream, [], None)])
    else OpenStream(u, request, client, head, endStream)
  }

  function Chunks(body: seq<(seq<Octet>, bool)>): seq<seq<Octet>> {
    if body == [] then []
    else (if body[0].0 == [] then [] else [body[0].0]) + Chunks(body[1..])
  }

  predicate AnyEnd(body: seq<(seq<Octet>, bool)>) {
    exists i :: 0 <= i < |body| && body[i].1
  }

  /** What gathered while a request waited follows its head, in order. */
  function Attach(u: Up, p: Pending): Up {
    if p.request !in u.requests then u
    else
      var id := u.requests[p.request];
      if id !in u.streams.live then u
      else
        var s := u.streams.live[id];
        EnqueueReady(
          Put(u, id, s.(sendQueue := s.sendQueue + Chunks(p.body),
                        sendEndStream := s.sendEndStream || AnyEnd(p.body) || p.trailers.Some?,
                        pendingTrailers := if p.trailers.Some? then p.trailers else s.pendingTrailers)),
          id)
  }

  /** Start as many waiting requests as there is room for. */
  function DrainPending(u: Up): Up
    decreases |u.pending|
  {
    if u.pending == [] || !CanOpenLocal(u.streams) then u
    else
      var p := u.pending[0];
      DrainPending(Attach(SendRequest(u.(pending := u.pending[1..]), p.request, p.client, p.head, p.endStream), p))
  }

  /** Drop a route, hand back what it still held, and give its place to whoever is
      waiting. */
  function Forget(u: Up, id: StreamId): Up {
    var retired := RetireStream(u, id);
    var gone :=
      if id !in u.routes then retired
      else
        var route := u.routes[id];
        var dropped := retired.(routes := u.routes - {id}, requests := u.requests - {route.request},
                                acts := u.acts + [Forgot(id)]);
        if route.pendingConnRelease > 0 then ReleaseConn(dropped, route.pendingConnRelease) else dropped;
    DrainPending(gone)
  }

  /** A status for a response not yet begun, an abort for one that has. */
  function FailStream(u: Up, id: StreamId, status: seq<Header>): Up {
    var told :=
      if id !in u.routes then u
      else
        var client := u.routes[id].client.id;
        Tell(u, id, if u.routes[id].headSent then ResetStream(client, InternalError) else Head(client, status, true));
    Forget(if id in told.streams.live then WriteRst(told, id, ErrorCode.Cancel) else told, id)
  }

  const BAD_GATEWAY := StatusOnly(5, 0, 2)

  function ApplyEvent(u: Up, id: StreamId, event: StreamEvent): Onward {
    var (table, r) := u.streams.Apply(id, event);
    match r
    case Ok(state) =>
      Ok(if state.Closed? then u.(streams := table, ready := Without(u.ready, id)) else u.(streams := table))
    case Err(code) => if code == ProtocolError then Err(ProtocolError) else Ok(FailStream(u, id, BAD_GATEWAY))
  }

  // -------------------------------------------------------------------------
  // What clients ask for.
  // -------------------------------------------------------------------------

  function AppendBody(pending: seq<Pending>, request: RequestId, data: seq<Octet>, endStream: bool): seq<Pending> {
    if pending == [] then []
    else if pending[0].request == request then
      [pending[0].(body := pending[0].body + [(data, endStream)])] + pending[1..]
    else [pending[0]] + AppendBody(pending[1..], request, data, endStream)
  }

  function AppendTrailers(pending: seq<Pending>, request: RequestId, fields: seq<Header>): seq<Pending> {
    if pending == [] then []
    else if pending[0].request == request then [pending[0].(trailers := Some(fields))] + pending[1..]
    else [pending[0]] + AppendTrailers(pending[1..], request, fields)
  }

  function WithoutRequest(pending: seq<Pending>, request: RequestId): seq<Pending> {
    if pending == [] then []
    else (if pending[0].request == request then [] else [pending[0]]) + WithoutRequest(pending[1..], request)
  }

  /** Give the backend `n` octets back, now that the client has them. */
  function Release(u: Up, id: StreamId, n: U32): Up {
    if n == 0 then u
    else
      var owed := if id in u.routes then
                    u.(routes := u.routes[id := u.routes[id].(pendingConnRelease :=
                         if n > u.routes[id].pendingConnRelease then 0 else u.routes[id].pendingConnRelease - n)])
                  else u;
      var own :=
        if id !in owed.streams.live then owed
        else
          var (window, update) := owed.streams.live[id].recvWindow.Release(n);
          var kept := Put(owed, id, owed.streams.live[id].(recvWindow := window));
          if update.None? then kept else QueueFrame(kept, WindowUpdate(id, update.value));
      ReleaseConn(own, n)
  }

  function OnMessage(u: Up, m: Message): Up {
    match m
    case Request(request, client, head, endStream) => SendRequest(u, request, client, head, endStream)
    case RequestBody(request, data, endStream) =>
      if request !in u.requests then u.(pending := AppendBody(u.pending, request, data, endStream))
      else
        var id := u.requests[request];
        if id !in u.streams.live then u
        else
          var s := u.streams.live[id];
          EnqueueReady(Put(u, id, s.(sendQueue := if data == [] then s.sendQueue else s.sendQueue + [data],
                                     sendEndStream := s.sendEndStream || endStream)), id)
    case RequestEnd(request, fields) =>
      if request !in u.requests then u.(pending := AppendTrailers(u.pending, request, fields))
      else
        var id := u.requests[request];
        if id !in u.streams.live then u
        else
          EnqueueReady(Put(u, id, u.streams.live[id].(pendingTrailers := Some(fields), sendEndStream := true)), id)
    case Delivered(request, n) => if request in u.requests then Release(u, u.requests[request], n) else u
    case Cancel(request, code) =>
      if request !in u.requests then
        u.(pending := WithoutRequest(u.pending, request), cancelled := u.cancelled + {request})
      else
        var id := u.requests[request];
        Forget(if id in u.streams.live then WriteRst(u, id, code) else u, id)
  }

  // -------------------------------------------------------------------------
  // What the backend says.
  // -------------------------------------------------------------------------

  /** What validation makes of a response's header list. */
  datatype HeadCheck = BadHead | Interim | Final

  function OnResponse(u: Up, id: StreamId, fields: seq<Header>, endStream: bool, check: HeadCheck): Onward {
    if u.streams.Find(id).NeverOpened? then Err(ProtocolError)
    else if id !in u.routes then Ok(u)
    else
      var client := u.routes[id].client.id;
      if u.routes[id].headSent then
        var told := if ValidTrailers(fields) then Tell(u, id, Trailers(client, fields)) else u;
        var applied :- ApplyEvent(told, id, RecvHeaders(endStream));
        Ok(if endStream then Forget(applied, id) else applied)
      else
        match check
        case BadHead => Ok(FailStream(u, id, BAD_GATEWAY))
        case Interim => ApplyEvent(u, id, RecvHeaders(false))
        case Final =>
          var told := Tell(u.(routes := u.routes[id := u.routes[id].(headSent := true)]), id,
                           Head(client, fields, endStream));
          var applied :- ApplyEvent(told, id, RecvHeaders(endStream));
          Ok(if endStream then Forget(applied, id) else applied)
  }

  /** Response octets: recorded, sent on, and not released. */
  function OnData(u: Up, id: StreamId, data: seq<Octet>, endStream: bool): Onward
    requires |data| < U32_LIMIT
  {
    var recorded := u.connRecv.Record(|data|);
    if recorded == None then Err(FlowControlError)
    else
      var u1 := u.(connRecv := recorded.value);
      match u1.streams.Find(id)
      case NeverOpened => Err(ProtocolError)
      case WasClosed => Ok(ReleaseConn(u1, |data|))
      case Live(s) =>
        var window := s.recvWindow.Record(|data|);
        if window == None then Ok(FailStream(WriteRst(u1, id, FlowControlError), id, BAD_GATEWAY))
        else SendOn(Put(u1, id, s.(recvWindow := window.value)), id, data, endStream)
  }

  function SendOn(u: Up, id: StreamId, data: seq<Octet>, endStream: bool): Onward
    requires |data| < U32_LIMIT
  {
    var told :=
      if id !in u.routes then u
      else
        var held := SaturatingAdd(u.routes[id].pendingConnRelease, |data|);
        Tell(u.(routes := u.routes[id := u.routes[id].(pendingConnRelease := held)]), id,
             BodyData(u.routes[id].client.id, data, endStream));
    var applied :- ApplyEvent(told, id, RecvData(endStream));
    Ok(if endStream then Forget(applied, id) else applied)
  }

  function OnRst(u: Up, id: StreamId, code: ErrorCode): Up {
    Forget(if id in u.routes then Tell(u, id, ResetStream(u.routes[id].client.id, code)) else u, id)
  }

  function OnWindowUpdate(u: Up, id: StreamId, increment: U32): Onward {
    if increment == 0 then
      if id == CONNECTION then Err(ProtocolError) else Ok(WriteRst(u, id, ProtocolError))
    else if id == CONNECTION then
      var credited := u.connSend.Increase(increment);
      if credited == None then Err(FlowControlError) else Ok(u.(connSend := credited.value))
    else
      match u.streams.Find(id)
      case NeverOpened => Err(ProtocolError)
      case WasClosed => Ok(u)
      case Live(s) =>
        var credited := s.sendWindow.Increase(increment);
        if credited == None then Ok(WriteRst(u, id, FlowControlError))
        else Ok(EnqueueReady(Put(u, id, s.(sendWindow := credited.value)), id))
  }

  const MAX_CONCURRENT_STREAMS: nat := 3

  /** The last MAX_CONCURRENT_STREAMS of a frame, if it has one. */
  function LimitIn(params: seq<Param>): Option<nat>
    decreases |params|
  {
    if params == [] then None
    else
      var last := params[|params| - 1];
      if last.id == MAX_CONCURRENT_STREAMS then Some(last.value) else LimitIn(params[..|params| - 1])
  }

  /** A raised limit frees places but starts nobody waiting. */
  function OnSettings(u: Up, params: seq<Param>): Onward {
    var peer :- ApplySettings(u.peer, params);
    var limit := LimitIn(params);
    var told := u.(peer := peer, encoder := u.encoder.SetMax(peer.headerTableSize),
                   streams := if limit.Some? && limit.value < U32_LIMIT then u.streams.(maxConcurrent := limit.value)
                              else u.streams);
    var delta := peer.initialWindow - u.peer.initialWindow;
    if delta == 0 then Ok(QueueFrame(told, Settings(true, [])))
    else
      var moved := told.streams.ApplyInitialWindowDelta(delta);
      if moved == None then Err(FlowControlError) else Ok(QueueFrame(told.(streams := moved.value), Settings(true, [])))
  }

  /** Everybody still waiting is told nothing was begun for them. */
  function RefuseAll(u: Up, waiting: seq<Pending>): Up
    decreases |waiting|
  {
    if waiting == [] then u
    else RefuseAll(Refuse(u, waiting[0].client, ResetStream(waiting[0].client.id, RefusedStream)), waiting[1..])
  }

  /** Let go of streams the backend will not process, in whatever order. */
  function Abandon(u: Up, ids: seq<StreamId>): Up
    decreases |ids|
  {
    if ids == [] then u
    else Abandon(OnRst(u, ids[0], RefusedStream), ids[1..])
  }

  /** The routes past `last`, in whatever order. */
  predicate Past(routes: map<StreamId, Route>, last: StreamId, ids: seq<StreamId>) {
    && (forall id :: id in ids ==> id in routes && id > last)
    && (forall id :: id in routes && id > last ==> id in ids)
  }

  /** The backend is going away: `above` lists the routes past the last stream it
      will process. */
  function OnGoAway(u: Up, last: StreamId, above: seq<StreamId>): Up
    requires Past(u.routes, last, above)
  {
    Abandon(RefuseAll(u.(draining := Some(last), pending := []), u.pending), above)
  }

  // -------------------------------------------------------------------------
  // Sending request bodies.
  // -------------------------------------------------------------------------

  function Budget(u: Up, s: Stream): nat {
    Min(Min(SEND_BUDGET, s.sendWindow.Sendable()), Min(u.connSend.Sendable(), u.peer.maxFrame))
  }

  function SendBody(u: Up, id: StreamId, t: Taken): Onward
    requires id in u.streams.live && |t.chunk| < U32_LIMIT
  {
    var own := t.rest.sendWindow.Consume(|t.chunk|);
    var all := u.connSend.Consume(|t.chunk|);
    if t.chunk != [] && (own == None || all == None) then Err(FlowControlError)
    else
      var spent := if t.chunk == [] then t.rest else t.rest.(sendWindow := own.value);
      var u1 := Put(u, id, spent);
      var u2 := if t.chunk == [] then u1 else u1.(connSend := all.value);
      if t.chunk != [] || t.endStream then
        ApplyEvent(QueueFrame(u2, Data(id, t.chunk, t.endStream)), id, SendData(t.endStream))
      else Ok(u2)
  }

  /** One visit: octets the backend has room for are credited to the client. */
  function VisitReady(u: Up, id: StreamId): Onward {
    if id !in u.streams.live then Ok(u)
    else
      var s := u.streams.live[id];
      var budget := Budget(u, s);
      if s.PendingSend() > 0 && budget == 0 then Ok(Put(u, id, s.(queued := false)))
      else
        var t := Take(s, budget);
        if t.chunk == [] && !t.endStream && t.trailers == None then Ok(Put(u, id, t.rest))
        else
          TakeFits(s.sendQueue, budget);
          var u1 :- SendBody(u, id, t);
          var u2 := if t.chunk != [] && id in u1.routes then
                      Tell(u1, id, BodyAccepted(u1.routes[id].client.id, |t.chunk|))
                    else u1;
          if t.trailers == None then Ok(u2)
          else
            var block := u2.encoder.Block(t.trailers.value);
            if |block| > MAX_ALLOWED_FRAME_SIZE then Err(InternalError)
            else
              ApplyEvent(QueueFrame(u2.(encoder := u2.encoder.After(t.trailers.value)), Headers(id, block, true, true)),
                         id, SendHeaders(true))
  }
}
