/** The client connection as it runs: an object whose handlers change its table,
    windows, ring and output in place, each proved to do exactly what the
    functions of the client leg and its scheduler say. */
module ClientConnection {
  import opened Octets
  import opened Frame
  import opened Flow
  import HpackTable
  import opened HpackCodec
  import opened Streams
  import opened ClientLeg
  import opened Ring
  import opened Sums
  import opened Scheduler
  import opened ClientRuns

  /** What a handler reports against what it ought to have done: no code and the
      new state, or the code the connection ends with. */
  ghost predicate Became(p: Progress, r: Option<ErrorCode>, now: Conn) {
    match p
    case Ok(d) => r == None && now == d
    case Err(code) => r == Some(code)
  }

  class Connection {
    const streams: StreamTable
    const connSend: SendWindow
    const connRecv: RecvWindow
    const encoder: HpackEncoder
    var ready: seq<StreamId>
    var out: seq<Octet>
    var peer: PeerSettings
    var pendingReset: seq<(StreamId, ErrorCode)>
    var drainCommitted: bool
    ghost var written: seq<Frame>
    ghost var calls: seq<Call>
    ghost var said: map<StreamId, seq<Header>>
    ghost var taken: seq<Octet>

    ghost function Parts(): set<object> {
      {this, streams, connSend, connRecv, connRecv.window, encoder, encoder.table}
    }

    /** What the socket has taken and what it has not is the frames written, printed. */
    ghost predicate Valid()
      reads Parts()
    {
      connSend != connRecv.window && encoder.Valid() && Prints(taken, out, written)
    }

    ghost function State(): Conn
      reads Parts()
    {
      Conn(streams.State(), ready, written, |out|, connSend.State(), connRecv.State(), peer, encoder.State(),
           pendingReset, calls, drainCommitted, said)
    }

    constructor (maxConcurrent: U32, window: WindowSize, streamWindow: WindowSize)
      ensures Valid() && fresh(Parts()) && State() == NewConn(maxConcurrent, window, streamWindow)
    {
      streams := new StreamTable(maxConcurrent, DEFAULT_INITIAL_WINDOW_SIZE, streamWindow);
      connSend := new SendWindow(DEFAULT_INITIAL_WINDOW_SIZE);
      connRecv := new RecvWindow(window);
      encoder := new HpackEncoder(4096);
      ready, out, pendingReset, drainCommitted := [], [], [], false;
      peer := PeerSettings(4096, DEFAULT_INITIAL_WINDOW_SIZE, DEFAULT_MAX_FRAME_SIZE);
      written, calls, said, taken := [], [], map[], [];
    }

    /** Append a frame's octets to the output. Never waits. */
    method QueueFrame(f: Frame) returns (r: Option<ErrorCode>)
      requires Valid() && Printable(f)
      modifies this`out, this`written
      ensures Valid() && Became(Queue(old(State()), f), r, State())
      ensures out == old(out) + Printed(f) && (r == None <==> Write(f).Ok?)
    {
      hide PayloadOf, WriteHeader, PrintedAll;
      var octets := Write(f);
      if octets.Err? {
        assert out + [] == out;
        return Some(InternalError);
      }
      PrintedSnoc(written, f);
      assert taken + (out + octets.value) == (taken + out) + octets.value;
      out := out + octets.value;
      written := written + [f];
      return None;
    }

    /** The socket takes as many octets as it will. */
    method Flush(n: nat)
      requires Valid()
      modifies this`out, this`taken
      ensures Valid() && taken + out == old(taken + out)
      ensures State() == old(State()).(outLen := if n > old(|out|) then 0 else old(|out|) - n)
    {
      var k := if n > |out| then |out| else n;
      assert (taken + out[..k]) + out[k..] == taken + out;
      taken := taken + out[..k];
      out := out[k..];
    }

    method QueueHeaders(id: StreamId, fields: seq<Header>, endStream: bool) returns (r: Option<ErrorCode>)
      requires Valid()
      modifies this`out, this`written, this`said, encoder, encoder.table
      ensures Valid() && Became(QueueHead(old(State()), id, fields, endStream), r, State())
    {
      hide Prints, Printed, Write, EncoderState.Block, EncoderState.After, Queue;
      var block := encoder.Encode(fields, []);
      assert [] + old(encoder.State()).Block(fields) == old(encoder.State()).Block(fields);
      said := said[id := fields];
      r := QueueFrame(Headers(id, block, endStream, true));
    }

    method ReleaseConnWindow(n: U32) returns (r: Option<ErrorCode>)
      requires Valid()
      modifies this`out, this`written, connRecv, connRecv.window
      ensures Valid() && Became(ReleaseConn(old(State()), n), r, State())
    {
      hide Prints, Printed, Write, Queue, Receive.Release;
      var update := connRecv.Release(n);
      if update.Some? {
        r := QueueFrame(WindowUpdate(CONNECTION, update.value));
      } else {
        r := None;
      }
    }

    method DrainReclaimedCredit() returns (r: Option<ErrorCode>)
      requires Valid()
      modifies this`out, this`written, connRecv, connRecv.window, streams
      ensures Valid() && Became(DrainReclaimed(old(State())), r, State())
    {
      hide Prints, Printed, Write, ReleaseConn;
      var reclaimed := streams.TakeReclaimed();
      if reclaimed == 0 {
        return None;
      }
      r := ReleaseConnWindow(reclaimed);
    }

    method Retain(id: StreamId)
      modifies this`ready
      ensures ready == Without(old(ready), id)
    {
      ghost var was := ready;
      var kept := [];
      for i := 0 to |ready|
        invariant ready == was && Without(was, id) == kept + Without(was[i..], id)
      {
        assert was[i..][0] == was[i] && was[i..][1..] == was[i + 1..];
        if ready[i] != id {
          assert kept + ([was[i]] + Without(was[i + 1..], id)) == (kept + [was[i]]) + Without(was[i + 1..], id);
          kept := kept + [ready[i]];
        }
      }
      assert kept + [] == kept;
      ready := kept;
    }

    method WriteRstStream(id: StreamId, code: ErrorCode) returns (r: Option<ErrorCode>)
      requires Valid()
      modifies this, connRecv, connRecv.window, streams
      ensures Valid() && Became(WriteRst(old(State()), id, code), r, State())
    {
      hide Prints, Printed, Write, DrainReclaimed, Queue, Table.Retire;
      streams.Retire(id);
      Retain(id);
      calls := calls + [Cancelled(id)];
      r := DrainReclaimedCredit();
      if r == None {
        r := QueueFrame(RstStream(id, code));
      }
    }

    method ApplyStreamEvent(id: StreamId, event: StreamEvent) returns (r: Option<ErrorCode>)
      requires Valid()
      modifies this, connRecv, connRecv.window, streams
      ensures Valid() && Became(ApplyEvent(old(State()), id, event), r, State())
    {
      hide Prints, Printed, Write, DrainReclaimed, Transition, Table.Retire;
      ghost var was := streams.State();
      var applied := streams.Apply(id, event);
      if applied.Ok? {
        if applied.value.Closed? {
          Retain(id);
          calls := calls + [Finish(id)];
          r := DrainReclaimedCredit();
        } else {
          r := None;
        }
      } else if applied.error == ProtocolError {
        r := Some(ProtocolError);
      } else {
        assert streams.State() == was;
        streams.Retire(id);
        Retain(id);
        pendingReset := pendingReset + [(id, applied.error)];
        r := None;
      }
    }

    method EnqueueReady(id: StreamId)
      requires Valid()
      modifies this`ready, streams
      ensures Valid() && State() == Enqueue(old(State()), id)
    {
      if id !in streams.live {
        return;
      }
      var stream := streams.live[id];
      if stream.queued || !stream.HasPendingSend() {
        return;
      }
      streams.live := streams.live[id := stream.(queued := true)];
      ready := ready + [id];
    }

    method Respond(id: StreamId, fields: seq<Header>, endStream: bool) returns (r: Option<ErrorCode>)
      requires Valid()
      modifies Parts()
      ensures Valid() && Became(SendResponse(old(State()), id, fields, endStream), r, State())
    {
      hide Prints, Printed, Write, QueueHead, ApplyEvent;
      r := QueueHeaders(id, fields, endStream);
      if r.Some? {
        return;
      }
      if id in streams.live {
        streams.live := streams.live[id := streams.live[id].(responseStarted := true)];
      }
      r := ApplyStreamEvent(id, SendHeaders(endStream));
    }

    method RespondTrailers(id: StreamId, fields: seq<Header>) returns (r: Option<ErrorCode>)
      requires Valid()
      modifies Parts()
      ensures Valid() && Became(SendTrailers(old(State()), id, fields), r, State())
    {
      hide Prints, Printed, Write, QueueHead, ApplyEvent, Enqueue, ValidTrailers;
      if !ValidTrailers(fields) {
        if id in streams.live {
          streams.live := streams.live[id := streams.live[id].(sendEndStream := true)];
        }
        EnqueueReady(id);
        return None;
      }
      if id in streams.live && streams.live[id].HasPendingSend() {
        streams.live := streams.live[id := streams.live[id].(pendingTrailers := Some(fields), sendEndStream := true)];
        EnqueueReady(id);
        return None;
      }
      r := QueueHeaders(id, fields, true);
      if r == None {
        r := ApplyStreamEvent(id, SendHeaders(true));
      }
    }

    method Reject(id: StreamId, status: seq<Header>) returns (r: Option<ErrorCode>)
      requires Valid()
      modifies Parts()
      ensures Valid() && Became(RejectStream(old(State()), id, status), r, State())
    {
      hide Prints, Printed, Write, SendResponse, ApplyEvent, WriteRst, Table.OpenPeer;
      if id !in streams.live {
        var admitted := streams.OpenPeer(id);
        match admitted {
          case Err(Protocol) => return Some(ProtocolError);
          case Err(Refused) =>
            r := WriteRstStream(id, RefusedStream);
            return;
          case Ok(_) =>
        }
        r := ApplyStreamEvent(id, RecvHeaders(true));
        if r.Some? {
          return;
        }
      }
      r := Respond(id, status, true);
    }

    method ReleaseRecvWindow(id: StreamId, n: U32) returns (r: Option<ErrorCode>)
      requires Valid()
      modifies Parts()
      ensures Valid() && Became(ReleaseBody(old(State()), id, n), r, State())
    {
      hide Prints, Printed, Write, Queue, ReleaseConn, DrainReclaimed, Receive.Release;
      if n == 0 {
        return None;
      }
      if id in streams.live {
        var stream := streams.live[id];
        var (window, update) := stream.recvWindow.Release(n);
        var owed := if n > stream.pendingConnRelease then 0 else stream.pendingConnRelease - n;
        streams.live := streams.live[id := stream.(recvWindow := window, pendingConnRelease := owed)];
        if update.Some? {
          r := QueueFrame(WindowUpdate(id, update.value));
          if r.Some? {
            return;
          }
        }
        r := ReleaseConnWindow(n);
        if r.Some? {
          return;
        }
      }
      r := DrainReclaimedCredit();
    }

    method GiveUpOn(id: StreamId, status: seq<Header>) returns (r: Option<ErrorCode>)
      requires Valid()
      modifies Parts()
      ensures Valid() && Became(GiveUp(old(State()), id, status), r, State())
    {
      hide Prints, Printed, Write, WriteRst, RejectStream;
      var started := id in streams.live && streams.live[id].responseStarted;
      if started {
        r := WriteRstStream(id, InternalError);
      } else {
        r := Reject(id, status);
      }
    }

    method HandleServiceEvent(event: ServiceEvent) returns (r: Option<ErrorCode>)
      requires Valid()
      modifies Parts()
      ensures Valid() && Became(OnService(old(State()), event), r, State())
    {
      hide Prints, Printed, Write, SendResponse, SendTrailers, ReleaseBody, GiveUp, WriteRst, Enqueue;
      r := None;
      match event {
        case Head(id, fields, endStream) =>
          if id in streams.live {
            r := Respond(id, fields, endStream);
          }
        case BodyData(id, data, endStream) =>
          if id in streams.live {
            var stream := streams.live[id];
            if data != [] {
              stream := stream.(sendQueue := stream.sendQueue + [data]);
            }
            if endStream {
              stream := stream.(sendEndStream := true);
            }
            streams.live := streams.live[id := stream];
            EnqueueReady(id);
          }
        case Trailers(id, fields) =>
          if id in streams.live {
            r := RespondTrailers(id, fields);
          }
        case BodyAccepted(id, n) =>
          r := ReleaseRecvWindow(id, n);
        case Gone(id) =>
          r := GiveUpOn(id, StatusOnly(5, 0, 2));
        case Shed(id) =>
          r := GiveUpOn(id, StatusOnly(5, 0, 3));
        case ResetStream(id, code) =>
          if id in streams.live {
            r := WriteRstStream(id, code);
          }
      }
    }

    // -----------------------------------------------------------------------
    // What the peer sent.
    // -----------------------------------------------------------------------

    method RecvTrailers(id: StreamId, fields: seq<Header>, endStream: bool) returns (r: Option<ErrorCode>)
      requires Valid() && id in streams.live
      modifies Parts()
      ensures Valid() && Became(RequestTrailersArrive(old(State()), id, fields, endStream), r, State())
    {
      hide Prints, Printed, Write, WriteRst, ApplyEvent, ValidTrailers;
      var stream := streams.live[id];
      if !stream.state.PeerCanSend() {
        r := WriteRstStream(id, StreamClosed);
      } else if !endStream || !ValidTrailers(fields) || !stream.ContentLengthMatches() {
        r := WriteRstStream(id, ProtocolError);
      } else {
        calls := calls + [RequestTrailers(id, fields)];
        r := ApplyStreamEvent(id, RecvHeaders(true));
      }
    }

    method RecvRequest(id: StreamId, fields: seq<Header>, endStream: bool, checked: Checked) returns (r: Option<ErrorCode>)
      requires Valid()
      modifies Parts()
      ensures Valid() && Became(OnRequest(old(State()), id, fields, endStream, checked), r, State())
    {
      hide Prints, Printed, Write, WriteRst, ApplyEvent, RequestTrailersArrive, Table.OpenPeer;
      if id in streams.live {
        r := RecvTrailers(id, fields, endStream);
        return;
      }
      if id <= Max(streams.highestPeerId, streams.highestLocalId) {
        return Some(StreamClosed);
      }
      if drainCommitted {
        r := WriteRstStream(id, RefusedStream);
        return;
      }
      var admitted := streams.OpenPeer(id);
      match admitted {
        case Err(Protocol) => return Some(ProtocolError);
        case Err(Refused) =>
          r := WriteRstStream(id, RefusedStream);
          return;
        case Ok(_) =>
      }
      r := ApplyStreamEvent(id, RecvHeaders(endStream));
      if r.Some? {
        return;
      }
      match checked {
        case Malformed(code) => r := WriteRstStream(id, code);
        case BadLength(code) => r := WriteRstStream(id, code);
        case Wellformed(contentLength) =>
          if id in streams.live && contentLength.Some? {
            streams.live := streams.live[id := streams.live[id].(contentLength := contentLength)];
          }
          if endStream && id in streams.live && !streams.live[id].ContentLengthMatches() {
            r := WriteRstStream(id, ProtocolError);
          } else {
            calls := calls + [Dispatch(id, endStream)];
          }
      }
    }

    method RecvBody(id: StreamId, data: seq<Octet>, endStream: bool) returns (r: Option<ErrorCode>)
      requires Valid() && id in streams.live && |data| < U32_LIMIT
      modifies Parts()
      ensures Valid() && Became(BodyArrives(old(State()), id, data, endStream), r, State())
    {
      hide Prints, Printed, Write, WriteRst, ApplyEvent, DrainReclaimed, Receive.Record, Stream.ContentLengthMatches, SaturatingAdd;
      var stream := streams.live[id];
      var recorded := stream.recvWindow.Record(|data|);
      stream := stream.(dataReceived := stream.dataReceived + |data|,
                        pendingConnRelease := SaturatingAdd(stream.pendingConnRelease, |data|),
                        recvWindow := if recorded.Some? then recorded.value else stream.recvWindow);
      streams.live := streams.live[id := stream];
      if recorded.None? {
        r := WriteRstStream(id, FlowControlError);
      } else if endStream && !stream.ContentLengthMatches() {
        r := WriteRstStream(id, ProtocolError);
      } else {
        r := ApplyStreamEvent(id, RecvData(endStream));
        if r.Some? {
          return;
        }
        if data != [] || endStream {
          calls := calls + [Body(id, data, endStream)];
        }
        r := DrainReclaimedCredit();
      }
    }

    /** The connection window is debited before the stream is looked up. */
    method RecvDataFrame(id: StreamId, data: seq<Octet>, endStream: bool) returns (r: Option<ErrorCode>)
      requires Valid() && |data| < U32_LIMIT
      modifies Parts()
      ensures Valid() && Became(OnData(old(State()), id, data, endStream), r, State())
    {
      hide Prints, Printed, Write, BodyArrives, WriteRst, ReleaseConn, Receive.Record;
      var ok := connRecv.Record(|data|);
      if !ok {
        return Some(FlowControlError);
      }
      if id in streams.live {
        r := RecvBody(id, data, endStream);
      } else if id <= Max(streams.highestPeerId, streams.highestLocalId) {
        r := ReleaseConnWindow(|data|);
        if r == None {
          r := WriteRstStream(id, StreamClosed);
        }
      } else {
        r := Some(ProtocolError);
      }
    }

    method RecvRstStreamFrame(id: StreamId) returns (r: Option<ErrorCode>)
      requires Valid()
      modifies Parts()
      ensures Valid() && Became(OnRst(old(State()), id), r, State())
    {
      hide Prints, Printed, Write, DrainReclaimed, Table.Retire;
      if id !in streams.live {
        return if id <= Max(streams.highestPeerId, streams.highestLocalId) then None else Some(ProtocolError);
      }
      streams.Retire(id);
      Retain(id);
      calls := calls + [Cancelled(id)];
      r := DrainReclaimedCredit();
    }

    method RecvWindowUpdateFrame(id: StreamId, increment: U32) returns (r: Option<ErrorCode>)
      requires Valid()
      modifies Parts()
      ensures Valid() && Became(OnWindowUpdate(old(State()), id, increment), r, State())
    {
      hide Prints, Printed, Write, WriteRst, Enqueue;
      if increment == 0 {
        if id == CONNECTION {
          return Some(ProtocolError);
        }
        r := WriteRstStream(id, ProtocolError);
        return;
      }
      if id == CONNECTION {
        var ok := connSend.Increase(increment);
        return if ok then None else Some(FlowControlError);
      }
      if id !in streams.live {
        return if id <= Max(streams.highestPeerId, streams.highestLocalId) then None else Some(ProtocolError);
      }
      var credited := streams.live[id].sendWindow.Increase(increment);
      if credited.None? {
        r := WriteRstStream(id, FlowControlError);
        return;
      }
      streams.live := streams.live[id := streams.live[id].(sendWindow := credited.value)];
      EnqueueReady(id);
      r := None;
    }

    method ApplyPeerSettings(params: seq<Param>) returns (r: Option<ErrorCode>)
      modifies this`peer
      ensures match ApplySettings(old(peer), params)
              case Err(code) => r == Some(code)
              case Ok(p) => r == None && peer == p
    {
      ghost var was := peer;
      for i := 0 to |params|
        invariant ApplySettings(was, params) == ApplySettings(peer, params[i..])
      {
        assert params[i..][0] == params[i] && params[i..][1..] == params[i + 1..];
        var next := ApplySetting(peer, params[i]);
        if next.Err? {
          return Some(next.error);
        }
        peer := next.value;
      }
      r := None;
    }

    method AdoptSettings(params: seq<Param>) returns (r: Option<ErrorCode>)
      requires Valid()
      modifies this`peer, encoder, encoder.table
      ensures Valid()
      ensures match ApplySettings(old(peer), params)
              case Err(code) => r == Some(code)
              case Ok(p) =>
                r == None && State() == old(State()).(peer := p, encoder := old(encoder.State()).SetMax(p.headerTableSize))
    {
      hide Prints, Printed, Write, ApplySettings, ApplySetting, EncoderState.SetMax;
      r := ApplyPeerSettings(params);
      if r == None {
        encoder.SetMaxTableSize(peer.headerTableSize);
      }
    }

    method RecvSettingsFrame(params: seq<Param>) returns (r: Option<ErrorCode>)
      requires Valid()
      modifies Parts()
      ensures Valid() && Became(OnSettings(old(State()), params), r, State())
    {
      hide Prints, Printed, Write, ApplySettings, ApplySetting, Queue, Table.ApplyInitialWindowDelta, EncoderState.SetMax;
      var previous := peer.initialWindow;
      r := AdoptSettings(params);
      if r.Some? {
        return;
      }
      var delta := peer.initialWindow - previous;
      if delta != 0 {
        var ok := streams.ApplyInitialWindowDelta(delta);
        if !ok {
          return Some(FlowControlError);
        }
      }
      r := QueueFrame(Settings(true, []));
    }

    // -----------------------------------------------------------------------
    // The writer.
    // -----------------------------------------------------------------------

    method SendBodyFrame(id: StreamId, t: Taken) returns (r: Option<ErrorCode>)
      requires Valid() && id in streams.live && |t.chunk| < U32_LIMIT
      modifies Parts()
      ensures Valid() && Became(SendBody(old(State()), id, t), r, State())
    {
      hide Prints, Printed, Write, Queue, ApplyEvent;
      var stream := t.rest;
      if t.chunk != [] {
        var spent := stream.sendWindow.Consume(|t.chunk|);
        if spent.None? {
          return Some(FlowControlError);
        }
        stream := stream.(sendWindow := spent.value);
        var ok := connSend.Consume(|t.chunk|);
        if !ok {
          return Some(FlowControlError);
        }
      }
      streams.live := streams.live[id := stream];
      if t.chunk == [] && !t.endStream {
        return None;
      }
      r := QueueFrame(Data(id, t.chunk, t.endStream));
      if r == None {
        r := ApplyStreamEvent(id, SendData(t.endStream));
      }
    }

    method VisitStream(id: StreamId) returns (r: Option<ErrorCode>, visit: Visit)
      requires Valid()
      modifies Parts()
      ensures Valid()
      ensures match VisitReady(old(State()), id)
              case Err(code) => r == Some(code)
              case Ok(v) => r == None && visit == v.visit && State() == v.conn
    {
      hide Prints, Printed, Write, SendBody, SendTrailers, Take, Stream.PendingSend, ValidTrailers;
      r, visit := None, Finished;
      if id !in streams.live {
        return;
      }
      var stream := streams.live[id];
      var budget := Min(Min(SEND_BUDGET, stream.sendWindow.Sendable()),
                        Min(Window(connSend.value).Sendable(), peer.maxFrame));
      if stream.PendingSend() > 0 && budget == 0 {
        streams.live := streams.live[id := stream.(queued := false)];
        return None, Stalled;
      }
      var t := Take(stream, budget);
      if t.chunk == [] && !t.endStream && t.trailers == None {
        streams.live := streams.live[id := t.rest];
        return;
      }
      TakeWithin(stream, budget);
      r := SendBodyFrame(id, t);
      if r.Some? {
        return;
      }
      if t.chunk != [] {
        calls := calls + [Released(id, |t.chunk|)];
      }
      if t.trailers.Some? {
        r := RespondTrailers(id, t.trailers.value);
        if r.Some? {
          return;
        }
      }
      visit := Wrote(id in streams.live && streams.live[id].HasPendingSend());
    }

    /** Mark every stream of the rebuilt ring as queued and drop those retired
        while the lap went round. */
    method RebuildRing(stalled: seq<StreamId>, served: seq<StreamId>, ghost wrote: bool)
      requires Valid()
      modifies this`ready, streams`live
      ensures Valid() && State() == Rebuild(LapEnd(old(State()), stalled, served, wrote))
    {
      hide Prints, Printed, Write;
      var ring := stalled + served;
      ghost var live := streams.live;
      for i := 0 to |ring|
        invariant streams.live == MarkQueued(live, ring[..i])
      {
        assert ring[..i + 1] == ring[..i] + [ring[i]];
        if ring[i] in streams.live {
          streams.live := streams.live[ring[i] := streams.live[ring[i]].(queued := true)];
        }
      }
      assert ring[..|ring|] == ring;
      var kept := [];
      for i := 0 to |ring|
        invariant StillLive(ring, live) == kept + StillLive(ring[i..], live)
      {
        assert ring[i..][0] == ring[i] && ring[i..][1..] == ring[i + 1..];
        if ring[i] in streams.live {
          assert kept + ([ring[i]] + StillLive(ring[i + 1..], live)) == (kept + [ring[i]]) + StillLive(ring[i + 1..], live);
          kept := kept + [ring[i]];
        } else {
          assert [] + StillLive(ring[i + 1..], live) == StillLive(ring[i + 1..], live);
        }
      }
      assert kept + [] == kept;
      ready := kept;
    }

    method RunOneLap() returns (r: Option<ErrorCode>, wrote: bool)
      requires Valid()
      modifies Parts()
      ensures Valid()
      ensures match OneLap(old(State()))
              case Err(code) => r == Some(code)
              case Ok((d, w)) => r == None && wrote == w && State() == d
    {
      hide Prints, Printed, Write, VisitReady, Rebuild;
      ghost var goal := RunLap(LapEnd(State().(ready := []), [], [], false), ready);
      var lap := ready;
      ready := [];
      var stalled, served := [], [];
      wrote := false;
      for i := 0 to |lap|
        invariant Valid()
        invariant goal == RunLap(LapEnd(State(), stalled, served, wrote), lap[i..])
      {
        assert lap[i..][0] == lap[i] && lap[i..][1..] == lap[i + 1..];
        var visit;
        r, visit := VisitStream(lap[i]);
        if r.Some? {
          return;
        }
        match visit {
          case Stalled => stalled := stalled + [lap[i]];
          case Wrote(more) =>
            wrote := true;
            if more {
              served := served + [lap[i]];
            }
          case Finished =>
        }
      }
      RebuildRing(stalled, served, wrote);
      r := None;
    }

    method FlushPendingResets() returns (r: Option<ErrorCode>)
      requires Valid()
      modifies Parts()
      ensures Valid() && Became(FlushResets(old(State())), r, State())
    {
      hide Prints, Printed, Write, WriteRst;
      ghost var goal := FlushResets(State());
      while pendingReset != []
        invariant Valid() && goal == FlushResets(State())
        decreases |pendingReset|
      {
        var last := pendingReset[|pendingReset| - 1];
        pendingReset := pendingReset[..|pendingReset| - 1];
        FlushKeeps(State(), last.0, last.1);
        r := WriteRstStream(last.0, last.1);
        if r.Some? {
          return;
        }
      }
      r := None;
    }

    /** Laps of the ring until the output is full or a lap writes nothing. */
    method PumpOutbound() returns (r: Option<ErrorCode>)
      requires Valid() && Sound(State())
      modifies Parts()
      ensures Valid() && Became(Pump(old(State())), r, State())
    {
      hide Prints, Printed, Write, OneLap, FlushResets, Sound;
      ghost var goal := Pump(State());
      while ready != []
        invariant Valid() && Sound(State()) && goal == Pump(State())
        decreases Total(State().streams.live, Load)
      {
        if |out| >= MAX_WRITE_QUEUE {
          break;
        }
        OneLapFacts(State());
        var wrote;
        r, wrote := RunOneLap();
        if r.Some? {
          return;
        }
        if !wrote {
          r := FlushPendingResets();
          return;
        }
      }
      r := FlushPendingResets();
    }
  }
}
