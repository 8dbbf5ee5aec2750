/** The connection a client speaks to (RFC 9113): what each handler does to the
    stream table, the two connection windows, the ready ring and the queue of
    frames to write. Every handler either leaves a connection or ends it with an
    error code; nothing here waits. */
module ClientLeg {
  import opened Octets
  import opened Frame
  import opened Flow
  import opened HpackCodec
  import opened Streams

  const SEND_BUDGET: nat := 16384
  const MAX_WRITE_QUEUE: nat := 262144
  const DEFAULT_MAX_FRAME_SIZE: nat := 16384

  const HEADER_TABLE_SIZE: nat := 1
  const ENABLE_PUSH: nat := 2
  const INITIAL_WINDOW_SIZE: nat := 4
  const MAX_FRAME_SIZE: nat := 5

  type WindowSize = n: I32 | 0 <= n

  /** The peer's settings that bound what we may send. */
  datatype PeerSettings = PeerSettings(headerTableSize: nat, initialWindow: WindowSize, maxFrame: nat)

  function ApplySetting(p: PeerSettings, param: Param): Result<PeerSettings, ErrorCode> {
    if param.id == HEADER_TABLE_SIZE then Ok(p.(headerTableSize := param.value))
    else if param.id == ENABLE_PUSH then if param.value > 1 then Err(ProtocolError) else Ok(p)
    else if param.id == INITIAL_WINDOW_SIZE then
      if param.value > MAX_WINDOW_SIZE then Err(FlowControlError) else Ok(p.(initialWindow := param.value))
    else if param.id == MAX_FRAME_SIZE then
      if DEFAULT_MAX_FRAME_SIZE <= param.value <= MAX_ALLOWED_FRAME_SIZE then Ok(p.(maxFrame := param.value))
      else Err(ProtocolError)
    else Ok(p)
  }

  function ApplySettings(p: PeerSettings, params: seq<Param>): Result<PeerSettings, ErrorCode>
    decreases |params|
  {
    if params == [] then Ok(p)
    else
      var next :- ApplySetting(p, params[0]);
      ApplySettings(next, params[1..])
  }

  /** What the responder is told. */
  datatype Call =
    | Dispatch(id: StreamId, endStream: bool)
    | Body(id: StreamId, data: seq<Octet>, endStream: bool)
    | RequestTrailers(id: StreamId, fields: seq<Header>)
    | Cancelled(id: StreamId)
    | Finish(id: StreamId)
    | Released(id: StreamId, n: nat)

  /** `written` is every frame ever queued, oldest first; `outLen` is how many of
      their octets the socket has not taken yet; `said` is the header list the last
      HEADERS of each stream encodes. */
  datatype Conn = Conn(
    streams: Table,
    ready: seq<StreamId>,
    written: seq<Frame>,
    outLen: nat,
    connSend: Window,
    connRecv: Receive,
    peer: PeerSettings,
    encoder: EncoderState,
    pendingReset: seq<(StreamId, ErrorCode)>,
    calls: seq<Call>,
    drainCommitted: bool,
    said: map<StreamId, seq<Header>>)
  {
    /** The live stream `id` names, if it does. */
    function Entry(id: StreamId): Option<Stream> {
      if id in streams.live then Some(streams.live[id]) else None
    }

    function Put(id: StreamId, s: Stream): Conn
      requires id in streams.live
    {
      this.(streams := streams.Put(id, s))
    }

    function Said(id: StreamId): Option<seq<Header>> {
      if id in said then Some(said[id]) else None
    }
  }

  /** A connection either goes on or ends with a code. */
  type Progress = Result<Conn, ErrorCode>

  function Without(ids: seq<StreamId>, id: StreamId): seq<StreamId> {
    if ids == [] then []
    else if ids[0] == id then Without(ids[1..], id)
    else [ids[0]] + Without(ids[1..], id)
  }

  // -------------------------------------------------------------------------
  // The steps handlers are made of.
  // -------------------------------------------------------------------------

  function Queue(c: Conn, f: Frame): Progress
    requires Printable(f)
  {
    if |PayloadOf(f)| > MAX_ALLOWED_FRAME_SIZE then Err(InternalError)
    else Ok(c.(written := c.written + [f], outLen := c.outLen + FRAME_HEADER_LEN + |PayloadOf(f)|))
  }

  /** HEADERS for a list encoded against the one outbound table. */
  function QueueHead(c: Conn, id: StreamId, fields: seq<Header>, endStream: bool): Progress {
    var block := c.encoder.Block(fields);
    Queue(c.(encoder := c.encoder.After(fields), said := c.said[id := fields]), Headers(id, block, endStream, true))
  }

  /** Credit the connection window, announcing it when enough has gathered. */
  function ReleaseConn(c: Conn, n: U32): Progress {
    var (window, update) := c.connRecv.Release(n);
    var credited := c.(connRecv := window);
    if update.None? then Ok(credited) else Queue(credited, WindowUpdate(CONNECTION, update.value))
  }

  function DrainReclaimed(c: Conn): Progress {
    var (table, n) := c.streams.TakeReclaimed();
    if n == 0 then Ok(c.(streams := table)) else ReleaseConn(c.(streams := table), n)
  }

  /** Out of the table and out of the ring. */
  function Drop(c: Conn, id: StreamId): Conn {
    c.(streams := c.streams.Retire(id), ready := Without(c.ready, id))
  }

  function WriteRst(c: Conn, id: StreamId, code: ErrorCode): Progress {
    var gone := Drop(c, id);
    var drained :- DrainReclaimed(gone.(calls := gone.calls + [Cancelled(id)]));
    Queue(drained, RstStream(id, code))
  }

  /** Drive the state machine. Only an event on a stream never opened ends the
      connection; any other illegal event costs that stream alone, and the reset
      it is owed is written later. */
  function ApplyEvent(c: Conn, id: StreamId, event: StreamEvent): Progress {
    var (table, r) := c.streams.Apply(id, event);
    match r
    case Ok(state) =>
      var moved := c.(streams := table);
      if state.Closed? then
        DrainReclaimed(moved.(ready := Without(c.ready, id), calls := c.calls + [Finish(id)]))
      else Ok(moved)
    case Err(code) =>
      if code == ProtocolError then Err(ProtocolError)
      else Ok(Drop(c, id).(pendingReset := c.pendingReset + [(id, code)]))
  }

  function Enqueue(c: Conn, id: StreamId): Conn {
    if id !in c.streams.live || c.streams.live[id].queued || !c.streams.live[id].HasPendingSend() then c
    else c.Put(id, c.streams.live[id].(queued := true)).(ready := c.ready + [id])
  }

  // -------------------------------------------------------------------------
  // What the responder produced.
  // -------------------------------------------------------------------------

  predicate IsUpper(o: Octet) {
    0x41 <= o <= 0x5a
  }

  predicate ConnectionSpecific(name: seq<Octet>) {
    || name == [0x63, 0x6f, 0x6e, 0x6e, 0x65, 0x63, 0x74, 0x69, 0x6f, 0x6e]
    || name == [0x6b, 0x65, 0x65, 0x70, 0x2d, 0x61, 0x6c, 0x69, 0x76, 0x65]
    || name == [0x70, 0x72, 0x6f, 0x78, 0x79, 0x2d, 0x63, 0x6f, 0x6e, 0x6e, 0x65, 0x63, 0x74, 0x69, 0x6f, 0x6e]
    || name == [0x74, 0x72, 0x61, 0x6e, 0x73, 0x66, 0x65, 0x72, 0x2d, 0x65, 0x6e, 0x63, 0x6f, 0x64, 0x69, 0x6e, 0x67]
    || name == [0x75, 0x70, 0x67, 0x72, 0x61, 0x64, 0x65]
  }

  predicate ValidTrailers(fields: seq<Header>) {
    forall h :: h in fields ==>
      && h.name != [] && h.name[0] != 0x3a
      && (forall o :: o in h.name ==> !IsUpper(o))
      && !ConnectionSpecific(h.name)
  }

  function SendResponse(c: Conn, id: StreamId, fields: seq<Header>, endStream: bool): Progress {
    var queued :- QueueHead(c, id, fields, endStream);
    var started := if id in queued.streams.live then queued.Put(id, queued.streams.live[id].(responseStarted := true))
                   else queued;
    ApplyEvent(started, id, SendHeaders(endStream))
  }

  /** Trailers end the stream. They wait behind a body that is still queued, and
      malformed ones are replaced by a bare end. */
  function SendTrailers(c: Conn, id: StreamId, fields: seq<Header>): Progress {
    if !ValidTrailers(fields) then
      var ended := if id in c.streams.live then c.Put(id, c.streams.live[id].(sendEndStream := true)) else c;
      Ok(Enqueue(ended, id))
    else if id in c.streams.live && c.streams.live[id].HasPendingSend() then
      Ok(Enqueue(c.Put(id, c.streams.live[id].(pendingTrailers := Some(fields), sendEndStream := true)), id))
    else
      var queued :- QueueHead(c, id, fields, true);
      ApplyEvent(queued, id, SendHeaders(true))
  }

  const STATUS_NAME: seq<Octet> := [0x3a, 0x73, 0x74, 0x61, 0x74, 0x75, 0x73]

  /** A bare three-digit status. */
  function StatusOnly(a: Octet, b: Octet, c: Octet): seq<Header>
    requires a < 10 && b < 10 && c < 10
  {
    [Header(STATUS_NAME, [0x30 + a, 0x30 + b, 0x30 + c], false)]
  }

  /** Answer with a bare status, opening the stream first if need be. */
  function RejectStream(c: Conn, id: StreamId, status: seq<Header>): Progress {
    if id in c.streams.live then SendResponse(c, id, status, true)
    else
      var (table, admitted) := c.streams.OpenPeer(id);
      match admitted
      case Err(Protocol) => Err(ProtocolError)
      case Err(Refused) => WriteRst(c.(streams := table), id, RefusedStream)
      case Ok(_) =>
        var received :- ApplyEvent(c.(streams := table), id, RecvHeaders(true));
        SendResponse(received, id, status, true)
  }

  /** Return credit at both levels once a request's octets have been taken. */
  function ReleaseBody(c: Conn, id: StreamId, n: U32): Progress {
    if n == 0 then Ok(c)
    else if id !in c.streams.live then DrainReclaimed(c)
    else
      var s := c.streams.live[id];
      var (window, update) := s.recvWindow.Release(n);
      var owed := if n > s.pendingConnRelease then 0 else s.pendingConnRelease - n;
      var released := c.Put(id, s.(recvWindow := window, pendingConnRelease := owed));
      var told :- if update.None? then Ok(released) else Queue(released, WindowUpdate(id, update.value));
      var credited :- ReleaseConn(told, n);
      DrainReclaimed(credited)
  }

  datatype ServiceEvent =
    | Head(id: StreamId, fields: seq<Header>, endStream: bool)
    | BodyData(id: StreamId, data: seq<Octet>, endStream: bool)
    | Trailers(id: StreamId, fields: seq<Header>)
    | BodyAccepted(id: StreamId, n: U32)
    | Gone(id: StreamId)
    | Shed(id: StreamId)
    | ResetStream(id: StreamId, code: ErrorCode)

  /** A failed exchange: a status if none has gone out, an abort otherwise. */
  function GiveUp(c: Conn, id: StreamId, status: seq<Header>): Progress {
    if id in c.streams.live && c.streams.live[id].responseStarted then WriteRst(c, id, InternalError)
    else RejectStream(c, id, status)
  }

  function OnService(c: Conn, e: ServiceEvent): Progress {
    match e
    case Head(id, fields, endStream) =>
      if id in c.streams.live then SendResponse(c, id, fields, endStream) else Ok(c)
    case BodyData(id, data, endStream) =>
      if id !in c.streams.live then Ok(c)
      else
        var s := c.streams.live[id];
        var held := s.(sendQueue := if data == [] then s.sendQueue else s.sendQueue + [data],
                       sendEndStream := s.sendEndStream || endStream);
        Ok(Enqueue(c.Put(id, held), id))
    case Trailers(id, fields) =>
      if id in c.streams.live then SendTrailers(c, id, fields) else Ok(c)
    case BodyAccepted(id, n) => ReleaseBody(c, id, n)
    case Gone(id) => GiveUp(c, id, StatusOnly(5, 0, 2))
    case Shed(id) => GiveUp(c, id, StatusOnly(5, 0, 3))
    case ResetStream(id, code) =>
      if id in c.streams.live then WriteRst(c, id, code) else Ok(c)
  }

  // -------------------------------------------------------------------------
  // What the peer sent.
  // -------------------------------------------------------------------------

  /** What validation makes of a request's header list. */
  datatype Checked = Malformed(code: ErrorCode) | BadLength(code: ErrorCode) | Wellformed(contentLength: Option<nat>)

  function RequestTrailersArrive(c: Conn, id: StreamId, fields: seq<Header>, endStream: bool): Progress
    requires id in c.streams.live
  {
    var s := c.streams.live[id];
    if !s.state.PeerCanSend() then WriteRst(c, id, StreamClosed)
    else if !endStream then WriteRst(c, id, ProtocolError)
    else if !ValidTrailers(fields) then WriteRst(c, id, ProtocolError)
    else if !s.ContentLengthMatches() then WriteRst(c, id, ProtocolError)
    else ApplyEvent(c.(calls := c.calls + [RequestTrailers(id, fields)]), id, RecvHeaders(true))
  }

  function OnRequest(c: Conn, id: StreamId, fields: seq<Header>, endStream: bool, checked: Checked): Progress {
    if id in c.streams.live then RequestTrailersArrive(c, id, fields, endStream)
    else if c.streams.Find(id).WasClosed? then Err(StreamClosed)
    else if c.drainCommitted then WriteRst(c, id, RefusedStream)
    else
      var (table, admitted) := c.streams.OpenPeer(id);
      match admitted
      case Err(Protocol) => Err(ProtocolError)
      case Err(Refused) => WriteRst(c.(streams := table), id, RefusedStream)
      case Ok(_) =>
        var c1 :- ApplyEvent(c.(streams := table), id, RecvHeaders(endStream));
        match checked
        case Malformed(code) => WriteRst(c1, id, code)
        case BadLength(code) => WriteRst(c1, id, code)
        case Wellformed(contentLength) =>
          var c2 := if id in c1.streams.live && contentLength.Some? then
                      c1.Put(id, c1.streams.live[id].(contentLength := contentLength))
                    else c1;
          if endStream && id in c2.streams.live && !c2.streams.live[id].ContentLengthMatches() then
            WriteRst(c2, id, ProtocolError)
          else Ok(c2.(calls := c2.calls + [Dispatch(id, endStream)]))
  }

  /** Octets for a live stream, once the connection has accounted for them. */
  function BodyArrives(c: Conn, id: StreamId, data: seq<Octet>, endStream: bool): Progress
    requires id in c.streams.live && |data| < U32_LIMIT
  {
    var s := c.streams.live[id];
    var window := s.recvWindow.Record(|data|);
    var held := s.(dataReceived := s.dataReceived + |data|,
                   pendingConnRelease := SaturatingAdd(s.pendingConnRelease, |data|),
                   recvWindow := if window.Some? then window.value else s.recvWindow);
    if window == None then WriteRst(c.Put(id, held), id, FlowControlError)
    else if endStream && !held.ContentLengthMatches() then WriteRst(c.Put(id, held), id, ProtocolError)
    else
      var applied :- ApplyEvent(c.Put(id, held), id, RecvData(endStream));
      DrainReclaimed(if data != [] || endStream then applied.(calls := applied.calls + [Body(id, data, endStream)])
                     else applied)
  }

  function OnData(c: Conn, id: StreamId, data: seq<Octet>, endStream: bool): Progress
    requires |data| < U32_LIMIT
  {
    var recorded := c.connRecv.Record(|data|);
    if recorded == None then Err(FlowControlError)
    else
      var c1 := c.(connRecv := recorded.value);
      match c1.streams.Find(id)
      case NeverOpened => Err(ProtocolError)
      case WasClosed =>
        var released :- ReleaseConn(c1, |data|);
        WriteRst(released, id, StreamClosed)
      case Live(_) => BodyArrives(c1, id, data, endStream)
  }

  function OnRst(c: Conn, id: StreamId): Progress {
    match c.streams.Find(id)
    case NeverOpened => Err(ProtocolError)
    case WasClosed => Ok(c)
    case Live(_) =>
      var gone := Drop(c, id);
      DrainReclaimed(gone.(calls := gone.calls + [Cancelled(id)]))
  }

  function OnWindowUpdate(c: Conn, id: StreamId, increment: U32): Progress {
    if increment == 0 then
      if id == CONNECTION then Err(ProtocolError) else WriteRst(c, id, ProtocolError)
    else if id == CONNECTION then
      var credited := c.connSend.Increase(increment);
      if credited == None then Err(FlowControlError) else Ok(c.(connSend := credited.value))
    else
      match c.streams.Find(id)
      case NeverOpened => Err(ProtocolError)
      case WasClosed => Ok(c)
      case Live(s) =>
        var credited := s.sendWindow.Increase(increment);
        if credited == None then WriteRst(c, id, FlowControlError)
        else Ok(Enqueue(c.Put(id, s.(sendWindow := credited.value)), id))
  }

  function OnSettings(c: Conn, params: seq<Param>): Progress {
    var peer :- ApplySettings(c.peer, params);
    var told := c.(peer := peer, encoder := c.encoder.SetMax(peer.headerTableSize));
    var delta := peer.initialWindow - c.peer.initialWindow;
    if delta == 0 then Queue(told, Settings(true, []))
    else
      var moved := told.streams.ApplyInitialWindowDelta(delta);
      if moved == None then Err(FlowControlError)
      else Queue(told.(streams := moved.value), Settings(true, []))
  }
}
