/** The connection to a backend as it runs: an object whose handlers change its
    maps, queue, windows and ring in place, each proved to do exactly what the
    functions of the upstream leg say. */
module UpstreamConnection {
  import opened Octets
  import opened Frame
  import opened Flow
  import HpackTable
  import opened HpackCodec
  import opened Streams
  import CL = ClientLeg
  import opened Scheduler
  import opened Upstream
  import opened Remapping
  import opened UpstreamSteps

  class Connection {
    const streams: StreamTable
    const connSend: SendWindow
    const connRecv: RecvWindow
    const encoder: HpackEncoder
    const maxPending: nat
    var routes: map<StreamId, Route>
    var requests: map<RequestId, StreamId>
    var cancelled: set<RequestId>
    var pending: seq<Pending>
    var nextStreamId: U32
    var draining: Option<StreamId>
    var ready: seq<StreamId>
    var peer: CL.PeerSettings
    var out: seq<Octet>
    ghost var written: seq<Frame>
    ghost var acts: seq<Act>
    ghost var taken: seq<Octet>

    ghost function Parts(): set<object> {
      {this, streams, connSend, connRecv, connRecv.window, encoder, encoder.table}
    }

    /** What the socket has taken and what it has not is the frames written, printed;
        and each of them could be framed. */
    ghost predicate Valid()
      reads Parts()
    {
      connSend != connRecv.window && encoder.Valid() && Prints(taken, out, written) && AllFramable(written)
    }

    ghost function State(): Up
      reads Parts()
    {
      Up(streams.State(), routes, requests, cancelled, pending, maxPending, nextStreamId, draining, ready,
         connSend.State(), connRecv.State(), peer, encoder.State(), written, acts)
    }

    constructor (maxPending: nat, window: CL.WindowSize, streamWindow: CL.WindowSize)
      ensures Valid() && fresh(Parts()) && State() == NewUp(maxPending, window, streamWindow)
    {
      streams := new StreamTable(U32_LIMIT - 1, DEFAULT_INITIAL_WINDOW_SIZE, streamWindow);
      connSend := new SendWindow(DEFAULT_INITIAL_WINDOW_SIZE);
      connRecv := new RecvWindow(window);
      encoder := new HpackEncoder(4096);
      this.maxPending := maxPending;
      routes, requests, cancelled, pending := map[], map[], {}, [];
      nextStreamId, draining, ready, out := 1, None, [], [];
      peer := CL.PeerSettings(4096, DEFAULT_INITIAL_WINDOW_SIZE, CL.DEFAULT_MAX_FRAME_SIZE);
      written, acts, taken := [], [], [];
    }

    /** A frame's octets at the end of the output, or an error and nothing done. */
    method Queue(f: Frame) returns (r: Option<ErrorCode>)
      requires Valid() && Printable(f)
      modifies this`out, this`written
      ensures Valid()
      ensures if FitsIn(f, MAX_ALLOWED_FRAME_SIZE)
              then r == None && State() == QueueFrame(old(State()), f) && out == old(out) + Printed(f)
              else r == Some(InternalError) && State() == old(State()) && out == old(out)
    {
      hide PayloadOf, WriteHeader, PrintedAll;
      var octets := Write(f);
      if octets.Err? {
        return Some(InternalError);
      }
      PrintedSnoc(written, f);
      assert taken + (out + Printed(f)) == (taken + out) + Printed(f);
      out := out + octets.value;
      written := written + [f];
      r := None;
    }

    /** The socket takes as many octets as it will. */
    method Flush(n: nat)
      requires Valid()
      modifies this`out, this`taken
      ensures Valid() && State() == old(State()) && taken + out == old(taken + out)
      ensures |out| == if n > old(|out|) then 0 else old(|out|) - n
    {
      var k := if n > |out| then |out| else n;
      assert (taken + out[..k]) + out[k..] == taken + out;
      taken := taken + out[..k];
      out := out[k..];
    }

    method Retain(id: StreamId)
      modifies this`ready
      ensures ready == CL.Without(old(ready), id)
    {
      ghost var was := ready;
      var kept := [];
      for i := 0 to |ready|
        invariant ready == was && CL.Without(was, id) == kept + CL.Without(was[i..], id)
      {
        assert was[i..][0] == was[i] && was[i..][1..] == was[i + 1..];
        if ready[i] != id {
          assert kept + ([was[i]] + CL.Without(was[i + 1..], id)) == (kept + [was[i]]) + CL.Without(was[i + 1..], id);
          kept := kept + [ready[i]];
        }
      }
      assert kept + [] == kept;
      ready := kept;
    }

    method ReleaseConnWindow(n: U32)
      requires Valid()
      modifies this`out, this`written, connRecv, connRecv.window
      ensures Valid() && State() == ReleaseConn(old(State()), n)
    {
      hide Prints, Printed, Write, AllFramable, Receive.Release, QueueFrame;
      var update := connRecv.Release(n);
      if update.Some? {
        var _ := Queue(WindowUpdate(CONNECTION, update.value));
      }
    }

    method RetireAndForget(id: StreamId)
      requires Valid()
      modifies this`ready, streams
      ensures Valid() && State() == RetireStream(old(State()), id)
    {
      hide Prints, Printed, Write, AllFramable, Table.Retire;
      streams.Retire(id);
      var _ := streams.TakeReclaimed();
      Retain(id);
    }

    method Reset(id: StreamId, code: ErrorCode)
      requires Valid()
      modifies this`out, this`written, this`ready, streams
      ensures Valid() && State() == WriteRst(old(State()), id, code)
    {
      hide Prints, Printed, Write, AllFramable, RetireStream, QueueFrame;
      RetireAndForget(id);
      var _ := Queue(RstStream(id, code));
    }

    method Enqueue(id: StreamId)
      requires Valid()
      modifies this`ready, streams
      ensures Valid() && State() == EnqueueReady(old(State()), id)
    {
      if id in streams.live {
        var stream := streams.live[id];
        if !stream.queued && stream.HasPendingSend() {
          streams.live := streams.live[id := stream.(queued := true)];
          ready := ready + [id];
        }
      }
    }

    /** HEADERS for a list encoded against the one outbound table. */
    method QueueHeaders(id: StreamId, fields: seq<Header>, endStream: bool) returns (r: Option<ErrorCode>)
      requires Valid()
      modifies this`out, this`written, encoder, encoder.table
      ensures Valid()
      ensures var coder := old(encoder.State());
              var after := old(State()).(encoder := coder.After(fields));
              var f := Headers(id, coder.Block(fields), endStream, true);
              if |coder.Block(fields)| <= MAX_ALLOWED_FRAME_SIZE then r == None && State() == QueueFrame(after, f)
              else r == Some(InternalError) && State() == after && !AllFramable(QueueFrame(after, f).written)
    {
      hide Prints, Printed, Write, AllFramable, EncoderState.Block, EncoderState.After;
      ghost var coder := encoder.State();
      var block := encoder.Encode(fields, []);
      assert [] + coder.Block(fields) == coder.Block(fields);
      FramableSnoc(written, Headers(id, block, endStream, true));
      r := Queue(Headers(id, block, endStream, true));
    }

    /** The two maps name each other. */
    method Enter(id: StreamId, request: RequestId, client: Client)
      requires Valid()
      modifies this`routes, this`requests, this`acts
      ensures Valid()
      ensures State() == old(State()).(routes := old(routes)[id := Route(client, request, false, 0)],
                                       requests := old(requests)[request := id],
                                       acts := old(acts) + [Act.Opened(id, request, client)])
    {
      routes := routes[id := Route(client, request, false, 0)];
      requests := requests[request := id];
      acts := acts + [Act.Opened(id, request, client)];
    }

    /** The stream's identifier is chosen here and nowhere else. */
    method Open(request: RequestId, client: Client, head: seq<Header>, endStream: bool) returns (r: Option<ErrorCode>)
      requires Valid()
      modifies Parts()
      ensures Valid() && Did(OpenStream(old(State()), request, client, head, endStream), r, State())
    {
      hide Prints, Printed, Write, AllFramable, EncoderState.Block, EncoderState.After, Table.OpenLocal, Table.Apply, StreamIdFrom,
        SaturatingAdd, HpackEncoder.Valid;
      var id := StreamIdFrom(nextStreamId);
      nextStreamId := SaturatingAdd(nextStreamId, 2);
      var admitted := streams.OpenLocal(id);
      if admitted.Err? {
        RefusalChangesNothing(old(streams.State()), id);
        acts := acts + [TurnedAway(client, CL.ResetStream(client.id, RefusedStream))];
        return None;
      }
      Enter(id, request, client);
      r := QueueHeaders(id, head, endStream);
      if r == None {
        var _ := streams.Apply(id, SendHeaders(endStream));
      }
    }

    method Send(request: RequestId, client: Client, head: seq<Header>, endStream: bool) returns (r: Option<ErrorCode>)
      requires Valid()
      modifies Parts()
      ensures Valid() && Did(SendRequest(old(State()), request, client, head, endStream), r, State())
    {
      hide Prints, Printed, Write, AllFramable, OpenStream;
      r := None;
      if request in cancelled {
        cancelled := cancelled - {request};
      } else if draining.Some? {
        acts := acts + [TurnedAway(client, CL.ResetStream(client.id, RefusedStream))];
      } else if !(|streams.live| < streams.maxConcurrent && streams.highestLocalId < MAX_LOCAL_STREAM_ID) {
        if |pending| >= maxPending {
          acts := acts + [TurnedAway(client, CL.Shed(client.id))];
        } else {
          pending := pending + [Pending(request, client, head, endStream, [], None)];
        }
      } else {
        r := Open(request, client, head, endStream);
      }
    }

    /** The chunks worth sending, and whether one of them was the last. */
    static method Gather(body: seq<(seq<Octet>, bool)>, queue0: seq<seq<Octet>>, end0: bool)
      returns (queue: seq<seq<Octet>>, end: bool)
      ensures queue == queue0 + Chunks(body) && (end <==> end0 || AnyEnd(body))
    {
      queue, end := queue0, end0;
      for i := 0 to |body|
        invariant queue + Chunks(body[i..]) == queue0 + Chunks(body)
        invariant end <==> end0 || AnyEnd(body[..i])
      {
        assert body[i..][0] == body[i] && body[i..][1..] == body[i + 1..];
        var (data, last) := body[i];
        assert queue + ([data] + Chunks(body[i + 1..])) == (queue + [data]) + Chunks(body[i + 1..]);
        assert queue + ([] + Chunks(body[i + 1..])) == queue + Chunks(body[i + 1..]);
        if data != [] {
          queue := queue + [data];
        }
        AnyEndSnoc(body, i);
        if last {
          end := true;
        }
      }
      assert body[..|body|] == body;
      assert queue + [] == queue;
    }

    /** What gathered while a request waited follows its head. */
    method Follow(p: Pending)
      requires Valid()
      modifies this`ready, streams
      ensures Valid() && State() == Attach(old(State()), p)
    {
      hide Prints, Printed, Write, AllFramable, EnqueueReady, Chunks, AnyEnd;
      if p.request !in requests {
        return;
      }
      var id := requests[p.request];
      if id !in streams.live {
        return;
      }
      var queue, end := Gather(p.body, streams.live[id].sendQueue, streams.live[id].sendEndStream);
      var stream := streams.live[id].(sendQueue := queue, sendEndStream := end);
      if p.trailers.Some? {
        stream := stream.(pendingTrailers := p.trailers, sendEndStream := true);
      }
      streams.live := streams.live[id := stream];
      Enqueue(id);
    }

    method DrainQueue() returns (r: Option<ErrorCode>)
      requires Valid()
      modifies Parts()
      ensures Valid() && Did(DrainPending(old(State())), r, State())
    {
      hide Prints, Printed, Write, AllFramable, SendRequest, Attach;
      r := None;
      ghost var goal := DrainPending(State());
      while |streams.live| < streams.maxConcurrent && streams.highestLocalId < MAX_LOCAL_STREAM_ID && pending != []
        invariant Valid() && goal == DrainPending(State()) && r == None
        decreases |pending|
      {
        var p := pending[0];
        pending := pending[1..];
        ghost var sent := SendRequest(State(), p.request, p.client, p.head, p.endStream);
        SendRequestGrows(State(), p.request, p.client, p.head, p.endStream);
        AttachGrows(sent, p);
        r := Send(p.request, p.client, p.head, p.endStream);
        if r != None {
          AttachWrites(sent, p);
          DrainWrites(Attach(sent, p));
          return;
        }
        Follow(p);
      }
    }

    /** The stream's own window. */
    method ReleaseOwn(id: StreamId, n: U32)
      requires Valid() && id in streams.live
      modifies this`out, this`written, streams
      ensures Valid()
      ensures var (window, update) := old(streams.live)[id].recvWindow.Release(n);
              var kept := Put(old(State()), id, old(streams.live)[id].(recvWindow := window));
              State() == if update.None? then kept else QueueFrame(kept, WindowUpdate(id, update.value))
    {
      hide Prints, Printed, Write, AllFramable, Receive.Release, QueueFrame;
      var (window, update) := streams.live[id].recvWindow.Release(n);
      streams.live := streams.live[id := streams.live[id].(recvWindow := window)];
      if update.Some? {
        var _ := Queue(WindowUpdate(id, update.value));
      }
    }

    method Release(id: StreamId, n: U32)
      requires Valid()
      modifies this`routes, this`out, this`written, streams, connRecv, connRecv.window
      ensures Valid() && State() == Upstream.Release(old(State()), id, n)
    {
      hide Prints, Printed, Write, AllFramable, Receive.Release, ReleaseConn, QueueFrame;
      if n == 0 {
        return;
      }
      if id in routes {
        var held := routes[id].pendingConnRelease;
        routes := routes[id := routes[id].(pendingConnRelease := if n > held then 0 else held - n)];
      }
      if id in streams.live {
        ReleaseOwn(id, n);
      }
      ReleaseConnWindow(n);
    }

    method Drop(id: StreamId) returns (r: Option<ErrorCode>)
      requires Valid()
      modifies Parts()
      ensures Valid() && Did(Forget(old(State()), id), r, State())
    {
      hide Prints, Printed, Write, AllFramable, RetireStream, ReleaseConn, DrainPending;
      RetireShape(State(), id);
      RetireAndForget(id);
      if id in routes {
        var route := routes[id];
        routes := routes - {id};
        requests := requests - {route.request};
        acts := acts + [Forgot(id)];
        if route.pendingConnRelease > 0 {
          ReleaseConnWindow(route.pendingConnRelease);
        }
      }
      r := DrainQueue();
    }

    method Fail(id: StreamId, status: seq<Header>) returns (r: Option<ErrorCode>)
      requires Valid()
      modifies Parts()
      ensures Valid() && Did(FailStream(old(State()), id, status), r, State())
    {
      hide Prints, Printed, Write, AllFramable, Forget, WriteRst;
      if id in routes {
        var route := routes[id];
        var event := if route.headSent then CL.ResetStream(route.client.id, InternalError)
                     else CL.Head(route.client.id, status, true);
        acts := acts + [Told(id, route.request, route.client, event)];
      }
      if id in streams.live {
        Reset(id, ErrorCode.Cancel);
      }
      r := Drop(id);
    }

    method ApplyStreamEvent(id: StreamId, event: StreamEvent) returns (r: Option<ErrorCode>)
      requires Valid()
      modifies Parts()
      ensures Valid() && Went(Upstream.ApplyEvent(old(State()), id, event), r, State())
    {
      hide Prints, Printed, Write, AllFramable, FailStream, Transition;
      ghost var was := streams.State();
      var applied := streams.Apply(id, event);
      r := None;
      if applied.Ok? {
        if applied.value.Closed? {
          Retain(id);
        }
      } else if applied.error == ProtocolError {
        r := Some(ProtocolError);
      } else {
        assert streams.State() == was;
        r := Fail(id, BAD_GATEWAY);
      }
    }

    // -----------------------------------------------------------------------
    // What clients ask for.
    // -----------------------------------------------------------------------

    method Handle(m: Message) returns (r: Option<ErrorCode>)
      requires Valid()
      modifies Parts()
      ensures Valid() && Did(OnMessage(old(State()), m), r, State())
    {
      hide Prints, Printed, Write, AllFramable, SendRequest, EnqueueReady, Upstream.Release, Forget, WriteRst, AppendBody,
        AppendTrailers, WithoutRequest;
      r := None;
      match m {
        case Request(request, client, head, endStream) => r := Send(request, client, head, endStream);
        case RequestBody(request, data, endStream) =>
          if request !in requests {
            pending := AppendBody(pending, request, data, endStream);
          } else if requests[request] in streams.live {
            var id := requests[request];
            var stream := streams.live[id];
            if data != [] {
              stream := stream.(sendQueue := stream.sendQueue + [data]);
            }
            if endStream {
              stream := stream.(sendEndStream := true);
            }
            streams.live := streams.live[id := stream];
            Enqueue(id);
          }
        case RequestEnd(request, fields) =>
          if request !in requests {
            pending := AppendTrailers(pending, request, fields);
          } else if requests[request] in streams.live {
            var id := requests[request];
            streams.live := streams.live[id := streams.live[id].(pendingTrailers := Some(fields), sendEndStream := true)];
            Enqueue(id);
          }
        case Delivered(request, n) =>
          if request in requests {
            Release(requests[request], n);
          }
        case Cancel(request, code) =>
          if request !in requests {
            pending := WithoutRequest(pending, request);
            cancelled := cancelled + {request};
          } else {
            var id := requests[request];
            if id in streams.live {
              Reset(id, code);
            }
            r := Drop(id);
          }
      }
    }

    // -----------------------------------------------------------------------
    // What the backend says.
    // -----------------------------------------------------------------------

    /** An event of the backend's, and the stream let go when it was the last. */
    method PeerEvent(id: StreamId, event: StreamEvent, last: bool) returns (r: Option<ErrorCode>)
      requires Valid()
      modifies Parts()
      ensures Valid() && Went(ThenForget(Upstream.ApplyEvent(old(State()), id, event), id, last), r, State())
    {
      hide Prints, Printed, Write, AllFramable, Upstream.ApplyEvent, Forget;
      ghost var applied := Upstream.ApplyEvent(State(), id, event);
      r := ApplyStreamEvent(id, event);
      if r == None && last {
        r := Drop(id);
      } else if applied.Ok? {
        ForgetWrites(applied.value, id);
      }
    }

    method RecvResponse(id: StreamId, fields: seq<Header>, endStream: bool, check: HeadCheck)
      returns (r: Option<ErrorCode>)
      requires Valid()
      modifies Parts()
      ensures Valid() && Went(OnResponse(old(State()), id, fields, endStream, check), r, State())
    {
      hide Prints, Printed, Write, AllFramable, Upstream.ApplyEvent, FailStream, Forget, CL.ValidTrailers;
      if id !in streams.live && id > Max(streams.highestPeerId, streams.highestLocalId) {
        return Some(ProtocolError);
      }
      if id !in routes {
        return None;
      }
      var route := routes[id];
      if route.headSent {
        if CL.ValidTrailers(fields) {
          acts := acts + [Told(id, route.request, route.client, CL.Trailers(route.client.id, fields))];
        }
      } else {
        match check {
          case BadHead =>
            r := Fail(id, BAD_GATEWAY);
            return;
          case Interim =>
            r := ApplyStreamEvent(id, RecvHeaders(false));
            return;
          case Final =>
            routes := routes[id := route.(headSent := true)];
            acts := acts + [Told(id, route.request, route.client, CL.Head(route.client.id, fields, endStream))];
        }
      }
      r := PeerEvent(id, RecvHeaders(endStream), endStream);
    }

    method Forward(id: StreamId, data: seq<Octet>, endStream: bool) returns (r: Option<ErrorCode>)
      requires Valid() && |data| < U32_LIMIT
      modifies Parts()
      ensures Valid() && Went(SendOn(old(State()), id, data, endStream), r, State())
    {
      hide Prints, Printed, Write, AllFramable, Upstream.ApplyEvent, Forget;
      if id in routes {
        var route := routes[id];
        routes := routes[id := route.(pendingConnRelease := SaturatingAdd(route.pendingConnRelease, |data|))];
        acts := acts + [Told(id, route.request, route.client, CL.BodyData(route.client.id, data, endStream))];
      }
      r := PeerEvent(id, RecvData(endStream), endStream);
    }

    /** Recorded, sent on, and not released. */
    method RecvDataFrame(id: StreamId, data: seq<Octet>, endStream: bool) returns (r: Option<ErrorCode>)
      requires Valid() && |data| < U32_LIMIT
      modifies Parts()
      ensures Valid() && Went(Upstream.OnData(old(State()), id, data, endStream), r, State())
    {
      hide Prints, Printed, Write, AllFramable, SendOn, FailStream, WriteRst, ReleaseConn, Receive.Record;
      var ok := connRecv.Record(|data|);
      if !ok {
        return Some(FlowControlError);
      }
      if id in streams.live {
        var window := streams.live[id].recvWindow.Record(|data|);
        if window.None? {
          Reset(id, FlowControlError);
          r := Fail(id, BAD_GATEWAY);
          return;
        }
        streams.live := streams.live[id := streams.live[id].(recvWindow := window.value)];
        r := Forward(id, data, endStream);
      } else if id <= Max(streams.highestPeerId, streams.highestLocalId) {
        ReleaseConnWindow(|data|);
        r := None;
      } else {
        r := Some(ProtocolError);
      }
    }

    method RecvRst(id: StreamId, code: ErrorCode) returns (r: Option<ErrorCode>)
      requires Valid()
      modifies Parts()
      ensures Valid() && Did(Upstream.OnRst(old(State()), id, code), r, State())
    {
      hide Prints, Printed, Write, AllFramable, Forget;
      if id in routes {
        var route := routes[id];
        acts := acts + [Told(id, route.request, route.client, CL.ResetStream(route.client.id, code))];
      }
      r := Drop(id);
    }

    method RecvWindowUpdate(id: StreamId, increment: U32) returns (r: Option<ErrorCode>)
      requires Valid()
      modifies Parts()
      ensures Valid() && Went(Upstream.OnWindowUpdate(old(State()), id, increment), r, State())
    {
      hide Prints, Printed, Write, AllFramable, WriteRst, EnqueueReady;
      r := None;
      if increment == 0 {
        if id == CONNECTION {
          return Some(ProtocolError);
        }
        Reset(id, ProtocolError);
      } else if id == CONNECTION {
        var ok := connSend.Increase(increment);
        r := if ok then None else Some(FlowControlError);
      } else if id in streams.live {
        var credited := streams.live[id].sendWindow.Increase(increment);
        if credited.None? {
          Reset(id, FlowControlError);
        } else {
          streams.live := streams.live[id := streams.live[id].(sendWindow := credited.value)];
          Enqueue(id);
        }
      } else if id > Max(streams.highestPeerId, streams.highestLocalId) {
        r := Some(ProtocolError);
      }
    }

    /** Take the backend's settings one by one, and find the limit they set. */
    method AdoptSettings(params: seq<Param>) returns (r: Option<ErrorCode>, limit: Option<nat>)
      modifies this`peer
      ensures match CL.ApplySettings(old(peer), params)
              case Err(code) => r == Some(code)
              case Ok(p) => r == None && peer == p && limit == LimitIn(params)
    {
      ghost var was := peer;
      limit := None;
      for i := 0 to |params|
        invariant CL.ApplySettings(was, params) == CL.ApplySettings(peer, params[i..])
        invariant limit == LimitIn(params[..i])
      {
        assert params[i..][0] == params[i] && params[i..][1..] == params[i + 1..];
        assert params[..i + 1][..i] == params[..i];
        var next := CL.ApplySetting(peer, params[i]);
        if next.Err? {
          return Some(next.error), limit;
        }
        peer := next.value;
        if params[i].id == MAX_CONCURRENT_STREAMS {
          limit := Some(params[i].value);
        }
      }
      assert params[..|params|] == params;
      r := None;
    }

    method TakeSettings(params: seq<Param>) returns (r: Option<ErrorCode>)
      requires Valid()
      modifies this`peer, encoder, encoder.table, streams`maxConcurrent
      ensures Valid()
      ensures match CL.ApplySettings(old(peer), params)
              case Err(code) => r == Some(code)
              case Ok(p) =>
                var limit := LimitIn(params);
                && r == None
                && State() == old(State()).(
                     peer := p, encoder := old(encoder.State()).SetMax(p.headerTableSize),
                     streams := if limit.Some? && limit.value < U32_LIMIT then old(streams.State()).(maxConcurrent := limit.value)
                                else old(streams.State()))
    {
      hide Prints, Printed, Write, AllFramable, CL.ApplySettings, CL.ApplySetting, LimitIn, EncoderState.SetMax;
      var limit;
      r, limit := AdoptSettings(params);
      if r == None {
        encoder.SetMaxTableSize(peer.headerTableSize);
        if limit.Some? && limit.value < U32_LIMIT {
          streams.maxConcurrent := limit.value;
        }
      }
    }

    method RecvSettings(params: seq<Param>) returns (r: Option<ErrorCode>)
      requires Valid()
      modifies Parts()
      ensures Valid() && Went(Upstream.OnSettings(old(State()), params), r, State())
    {
      hide Prints, Printed, Write, AllFramable, CL.ApplySettings, CL.ApplySetting, LimitIn, QueueFrame, Table.ApplyInitialWindowDelta, EncoderState.SetMax;
      var previous := peer.initialWindow;
      r := TakeSettings(params);
      if r.Some? {
        return;
      }
      var delta := peer.initialWindow - previous;
      if delta != 0 {
        var ok := streams.ApplyInitialWindowDelta(delta);
        if !ok {
          return Some(FlowControlError);
        }
      }
      var _ := Queue(Settings(true, []));
    }

    /** Nothing further is begun; what the backend will not process is let go. */
    method BeginDrain(last: StreamId, above: seq<StreamId>) returns (r: Option<ErrorCode>)
      requires Valid() && Past(routes, last, above)
      modifies Parts()
      ensures Valid() && Did(OnGoAway(old(State()), last, above), r, State())
    {
      hide Prints, Printed, Write, AllFramable, Upstream.OnRst;
      r := None;
      draining := Some(last);
      var waiting := pending;
      pending := [];
      ghost var goal := RefuseAll(State(), waiting);
      for i := 0 to |waiting|
        invariant Valid() && goal == RefuseAll(State(), waiting[i..])
      {
        assert waiting[i..][0] == waiting[i] && waiting[i..][1..] == waiting[i + 1..];
        acts := acts + [TurnedAway(waiting[i].client, CL.ResetStream(waiting[i].client.id, RefusedStream))];
      }
      ghost var goal1 := Abandon(State(), above);
      for i := 0 to |above|
        invariant Valid() && goal1 == Abandon(State(), above[i..]) && r == None
      {
        assert above[i..][0] == above[i] && above[i..][1..] == above[i + 1..];
        ghost var rid := Upstream.OnRst(State(), above[i], RefusedStream);
        r := RecvRst(above[i], RefusedStream);
        if r != None {
          AbandonWrites(rid, above[i + 1..]);
          return;
        }
      }
    }

    // -----------------------------------------------------------------------
    // Sending request bodies.
    // -----------------------------------------------------------------------

    method SendChunk(id: StreamId, t: Taken) returns (r: Option<ErrorCode>)
      requires Valid() && id in streams.live && |t.chunk| <= MAX_ALLOWED_FRAME_SIZE
      modifies Parts()
      ensures Valid() && Went(Upstream.SendBody(old(State()), id, t), r, State())
    {
      hide Prints, Printed, Write, AllFramable, Upstream.ApplyEvent, QueueFrame;
      var stream := t.rest;
      if t.chunk != [] {
        var spent := stream.sendWindow.Consume(|t.chunk|);
        if spent.None? {
          return Some(FlowControlError);
        }
        stream := stream.(sendWindow := spent.value);
        var ok := connSend.Consume(|t.chunk|);
        if !ok {
          return Some(FlowControlError);
        }
      }
      streams.live := streams.live[id := stream];
      if t.chunk == [] && !t.endStream {
        return None;
      }
      var _ := Queue(Data(id, t.chunk, t.endStream));
      r := ApplyStreamEvent(id, SendData(t.endStream));
    }

    /** Word to the client of what the backend has taken, and the trailers. */
    method Follows(id: StreamId, t: Taken) returns (r: Option<ErrorCode>)
      requires Valid() && |t.chunk| <= MAX_ALLOWED_FRAME_SIZE
      modifies Parts()
      ensures Valid()
      ensures var p := AfterBody(old(State()), id, t); Went(p, r, State()) || (p.Err? && r == Some(InternalError))
    {
      hide Prints, Printed, Write, AllFramable, Upstream.ApplyEvent, EncoderState.Block, EncoderState.After;
      r := None;
      if t.chunk != [] && id in routes {
        var route := routes[id];
        acts := acts + [Told(id, route.request, route.client, CL.BodyAccepted(route.client.id, |t.chunk|))];
      }
      if t.trailers.Some? {
        r := QueueHeaders(id, t.trailers.value, true);
        if r == None {
          r := ApplyStreamEvent(id, SendHeaders(true));
        }
      }
    }

    method Visit(id: StreamId) returns (r: Option<ErrorCode>)
      requires Valid()
      modifies Parts()
      ensures Valid()
      ensures var p := Upstream.VisitReady(old(State()), id); Went(p, r, State()) || (p.Err? && r == Some(InternalError))
    {
      hide Prints, Printed, Write, AllFramable, Upstream.SendBody, Upstream.VisitReady, AfterBody, Take, Stream.PendingSend;
      VisitInHalves(State(), id);
      if id !in streams.live {
        return None;
      }
      var stream := streams.live[id];
      var budget := Min(Min(CL.SEND_BUDGET, stream.sendWindow.Sendable()),
                        Min(Window(connSend.value).Sendable(), peer.maxFrame));
      if stream.PendingSend() > 0 && budget == 0 {
        streams.live := streams.live[id := stream.(queued := false)];
        return None;
      }
      var t := Take(stream, budget);
      if t.chunk == [] && !t.endStream && t.trailers == None {
        streams.live := streams.live[id := t.rest];
        return None;
      }
      TakeWithin(stream, budget);
      ghost var sent := Upstream.SendBody(State(), id, t);
      r := SendChunk(id, t);
      if r.Some? {
        if sent.Ok? {
          AfterBodyWrites(sent.value, id, t);
        }
        return;
      }
      r := Follows(id, t);
    }
  }

  /** What a handler did against what it ought to do: all of it, unless some HEADERS
      on the way could not be framed. */
  ghost predicate Did(u: Up, r: Option<ErrorCode>, now: Up) {
    if AllFramable(u.written) then r == None && now == u else r == Some(InternalError)
  }

  function ThenForget(p: Onward, id: StreamId, last: bool): Onward {
    if p.Ok? && last then Ok(Forget(p.value, id)) else p
  }

  ghost predicate Went(p: Onward, r: Option<ErrorCode>, now: Up) {
    match p
    case Ok(u) => Did(u, r, now)
    case Err(code) => r == Some(code)
  }

  lemma FramableSnoc(frames: seq<Frame>, f: Frame)
    ensures AllFramable(frames + [f]) <==> AllFramable(frames) && FitsIn(f, MAX_ALLOWED_FRAME_SIZE)
  {
    assert (frames + [f])[|frames|] == f;
    if AllFramable(frames + [f]) {
      forall g | g in frames
        ensures FitsIn(g, MAX_ALLOWED_FRAME_SIZE)
      {
        assert g in frames + [f];
      }
    }
  }

  /** What could not be framed stays on record. */
  lemma UnframableStays(u: Up, v: Up)
    requires Extends(u, v)
    ensures AllFramable(v.written) ==> AllFramable(u.written)
  {
    if AllFramable(v.written) {
      forall f | f in u.written
        ensures FitsIn(f, MAX_ALLOWED_FRAME_SIZE)
      {
        assert f in v.written;
      }
    }
  }

  lemma AttachWrites(u: Up, p: Pending)
    ensures AllFramable(Attach(u, p).written) ==> AllFramable(u.written)
  {
    hide Attach, AllFramable, Extends;
    AttachAlike(u, p);
    LittleExtends(u, Attach(u, p));
    UnframableStays(u, Attach(u, p));
  }

  lemma DrainWrites(u: Up)
    ensures AllFramable(DrainPending(u).written) ==> AllFramable(u.written)
  {
    hide DrainPending, AllFramable, Extends;
    DrainSteps(u);
    UnframableStays(u, DrainPending(u));
  }

  lemma ForgetWrites(u: Up, id: StreamId)
    ensures AllFramable(Forget(u, id).written) ==> AllFramable(u.written)
  {
    hide Forget, AllFramable, Extends, Loosens;
    LooseFromHere(u, id);
    ForgetKeeps(u, u, id);
    UnframableStays(u, Forget(u, id));
  }

  /** The rest of a visit, once its body has gone. */
  function AfterBody(u: Up, id: StreamId, t: Taken): Onward
    requires |t.chunk| < U32_LIMIT
  {
    var u2 := if t.chunk != [] && id in u.routes then
                Tell(u, id, CL.BodyAccepted(u.routes[id].client.id, |t.chunk|))
              else u;
    if t.trailers == None then Ok(u2)
    else
      var block := u2.encoder.Block(t.trailers.value);
      if |block| > MAX_ALLOWED_FRAME_SIZE then Err(InternalError)
      else
        Upstream.ApplyEvent(QueueFrame(u2.(encoder := u2.encoder.After(t.trailers.value)), Headers(id, block, true, true)),
                            id, SendHeaders(true))
  }

  lemma AfterBodyWrites(u: Up, id: StreamId, t: Taken)
    requires |t.chunk| < U32_LIMIT
    ensures var r := AfterBody(u, id, t); r.Ok? && AllFramable(r.value.written) ==> AllFramable(u.written)
  {
    hide Upstream.ApplyEvent, AllFramable, Extends, EncoderState.Block, EncoderState.After;
    var u2 := if t.chunk != [] && id in u.routes then
                Tell(u, id, CL.BodyAccepted(u.routes[id].client.id, |t.chunk|))
              else u;
    var r := AfterBody(u, id, t);
    if t.trailers.Some? && r.Ok? {
      EndKeeps(u2, id, t.trailers.value);
      UnframableStays(u2, r.value);
    }
  }

  /** A visit in two halves. */
  lemma VisitInHalves(u: Up, id: StreamId)
    ensures id !in u.streams.live ==> Upstream.VisitReady(u, id) == Ok(u)
    ensures id in u.streams.live ==>
            var s := u.streams.live[id];
            var t := Take(s, Upstream.Budget(u, s));
            |t.chunk| < U32_LIMIT &&
            Upstream.VisitReady(u, id) ==
            if s.PendingSend() > 0 && Upstream.Budget(u, s) == 0 then Ok(Put(u, id, s.(queued := false)))
            else if t.chunk == [] && !t.endStream && t.trailers == None then Ok(Put(u, id, t.rest))
            else
              match Upstream.SendBody(u, id, t)
              case Ok(u1) => AfterBody(u1, id, t)
              case Err(code) => Err(code)
  {
    hide Upstream.SendBody, Upstream.ApplyEvent, Take, Stream.PendingSend, EncoderState.Block, EncoderState.After;
    if id in u.streams.live {
      TakeWithin(u.streams.live[id], Upstream.Budget(u, u.streams.live[id]));
    }
  }

  lemma AbandonWrites(u: Up, ids: seq<StreamId>)
    ensures AllFramable(Abandon(u, ids).written) ==> AllFramable(u.written)
  {
    hide Abandon, AllFramable, Extends;
    AbandonKeeps(u, ids);
    UnframableStays(u, Abandon(u, ids));
  }

  lemma RefusalChangesNothing(t: Table, id: StreamId)
    ensures t.OpenLocal(id).1.Err? ==> t.OpenLocal(id).0 == t
  {
  }

  lemma AnyEndSnoc(body: seq<(seq<Octet>, bool)>, i: nat)
    requires i < |body|
    ensures AnyEnd(body[..i + 1]) <==> AnyEnd(body[..i]) || body[i].1
  {
    var longer, shorter := body[..i + 1], body[..i];
    assert longer[i] == body[i];
    assert forall k :: 0 <= k < i ==> longer[k] == shorter[k];
  }
}
