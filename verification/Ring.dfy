/** What every handler keeps: the ready ring holds exactly the live streams with
    something to send, each once, and a handler about one stream leaves every
    other stream, its place in the ring and its frames alone. */
module Ring {
  import opened Octets
  import opened Frame
  import opened Flow
  import opened HpackCodec
  import opened Streams
  import opened ClientLeg
  import opened Sums

  // -------------------------------------------------------------------------
  // What has been written.
  // -------------------------------------------------------------------------

  /** The response frames of one stream. */
  predicate Concerns(f: Frame, id: StreamId) {
    (f.Data? || f.Headers?) && f.stream == id
  }

  function On(written: seq<Frame>, id: StreamId): seq<Frame>
    decreases |written|
  {
    if written == [] then []
    else
      var n := |written| - 1;
      On(written[..n], id) + (if Concerns(written[n], id) then [written[n]] else [])
  }

  /** The frames that spend credit. */
  predicate Carries(f: Frame) {
    f.Data? && f.data != []
  }

  function Carrying(written: seq<Frame>): seq<Frame>
    decreases |written|
  {
    if written == [] then []
    else
      var n := |written| - 1;
      Carrying(written[..n]) + (if Carries(written[n]) then [written[n]] else [])
  }

  lemma Logged(written: seq<Frame>, f: Frame)
    ensures Carrying(written + [f]) == Carrying(written) + (if Carries(f) then [f] else [])
    ensures forall id :: On(written + [f], id) == On(written, id) + (if Concerns(f, id) then [f] else [])
  {
    assert (written + [f])[..|written|] == written;
  }

  // -------------------------------------------------------------------------
  // The ring.
  // -------------------------------------------------------------------------

  predicate NoDuplicates(ids: seq<StreamId>) {
    forall i, j :: 0 <= i < j < |ids| ==> ids[i] != ids[j]
  }

  lemma {:induction false} WithoutFacts(ids: seq<StreamId>, id: StreamId)
    ensures id !in Without(ids, id)
    ensures forall j :: j != id ==> (j in Without(ids, id) <==> j in ids)
    ensures NoDuplicates(ids) ==> NoDuplicates(Without(ids, id))
    ensures id !in ids ==> Without(ids, id) == ids
  {
    if ids != [] {
      WithoutFacts(ids[1..], id);
      assert ids == [ids[0]] + ids[1..];
      if NoDuplicates(ids) {
        assert NoDuplicates(ids[1..]);
        assert ids[0] !in ids[1..];
      }
    }
  }

  lemma {:induction false} WithoutTwice(ids: seq<StreamId>, id: StreamId)
    ensures Without(Without(ids, id), id) == Without(ids, id)
  {
    WithoutFacts(ids, id);
    WithoutFacts(Without(ids, id), id);
  }

  lemma {:induction false} WithoutSnoc(ids: seq<StreamId>, id: StreamId)
    requires id !in ids
    ensures Without(ids + [id], id) == ids
  {
    if ids == [] {
      assert [] + [id] == [id] && [id][1..] == [];
    } else {
      assert (ids + [id])[1..] == ids[1..] + [id];
      WithoutSnoc(ids[1..], id);
    }
  }

  /** A queue holds no empty chunks, and waiting trailers are fit to send and own
      the end of the stream. */
  predicate Proper(s: Stream) {
    && (forall chunk :: chunk in s.sendQueue ==> chunk != [])
    && (s.pendingTrailers.Some? ==> s.sendEndStream && ValidTrailers(s.pendingTrailers.value))
    && (s.queued <==> s.HasPendingSend())
  }

  predicate SoundAt(c: Conn, id: StreamId) {
    match c.Entry(id)
    case None => id !in c.ready
    case Some(s) => Proper(s) && (id in c.ready <==> s.HasPendingSend())
  }

  /** A live stream is in the ring, once, exactly when it has something to send. */
  ghost predicate Sound(c: Conn) {
    && NoDuplicates(c.ready)
    && (forall id: StreamId :: SoundAt(c, id))
    && DEFAULT_MAX_FRAME_SIZE <= c.peer.maxFrame
  }

  // -------------------------------------------------------------------------
  // One stream at a time.
  // -------------------------------------------------------------------------

  /** `id` leaves the ring, or joins it at the back, or keeps its place. */
  predicate RingMoves(a: seq<StreamId>, b: seq<StreamId>, id: StreamId) {
    b == a || b == Without(a, id) || (id !in a && b == a + [id])
  }

  /** Every other stream, and its response frames, as they were. */
  ghost predicate Elsewhere(c: Conn, d: Conn, id: StreamId) {
    && (forall j: StreamId :: j != id ==> d.Entry(j) == c.Entry(j))
    && (forall j: StreamId :: j != id ==> On(d.written, j) == On(c.written, j))
    && (forall j: StreamId :: j != id ==> d.Said(j) == c.Said(j))
    && d.peer == c.peer
    && d.streams.initialSend == c.streams.initialSend
    && d.streams.highestLocal == c.streams.highestLocal
    && d.streams.highestPeer >= c.streams.highestPeer
  }

  /** A change about one stream that writes no octets of any body. */
  ghost predicate Touches(c: Conn, d: Conn, id: StreamId) {
    && Elsewhere(c, d, id)
    && RingMoves(c.ready, d.ready, id)
    && Carrying(d.written) == Carrying(c.written)
    && d.connSend == c.connSend
  }

  lemma TouchesRing(c: Conn, d: Conn, id: StreamId)
    requires Touches(c, d, id) && NoDuplicates(c.ready)
    ensures NoDuplicates(d.ready)
    ensures forall j: StreamId :: j != id ==> (j in d.ready <==> j in c.ready)
  {
    WithoutFacts(c.ready, id);
  }

  lemma TouchesSound(c: Conn, d: Conn, id: StreamId)
    requires Sound(c) && Touches(c, d, id) && SoundAt(d, id)
    ensures Sound(d)
  {
    TouchesRing(c, d, id);
    forall j: StreamId | j != id
      ensures SoundAt(d, j)
    {
      assert SoundAt(c, j);
    }
  }

  /** Two changes about one stream are one, so long as it does not rejoin the ring
      after leaving. */
  lemma TouchesThen(c: Conn, d: Conn, e: Conn, id: StreamId)
    requires Touches(c, d, id) && Touches(d, e, id)
    requires e.ready == d.ready || e.ready == Without(d.ready, id) || d.ready == c.ready
    ensures Touches(c, e, id)
  {
    WithoutTwice(c.ready, id);
    if id !in c.ready {
      WithoutSnoc(c.ready, id);
      WithoutFacts(c.ready, id);
    }
  }

  /** Small frames always fit. */
  lemma ControlFits(c: Conn, f: Frame)
    requires Printable(f) && (f.RstStream? || f.WindowUpdate?)
    ensures Queue(c, f).Ok?
  {
  }

  /** Only a stream's outgoing side is asked for. */
  lemma ProperIsOutgoing(s: Stream, t: Stream)
    requires t.sendQueue == s.sendQueue && t.pendingTrailers == s.pendingTrailers && t.sendEndStream == s.sendEndStream
    requires t.queued == s.queued
    ensures Proper(s) <==> Proper(t)
  {
  }

  lemma CallsTouch(c: Conn, d: Conn, calls: seq<Call>, id: StreamId)
    requires Touches(c, d, id)
    ensures Touches(c, d.(calls := calls), id)
  {
  }

  lemma SoundFrame(c: Conn)
    requires Sound(c)
    ensures DEFAULT_MAX_FRAME_SIZE <= c.peer.maxFrame
  {
  }

  lemma PutTouches(c: Conn, id: StreamId, s: Stream)
    requires id in c.streams.live
    ensures Touches(c, c.Put(id, s), id)
  {
  }

  lemma QueueTouches(c: Conn, f: Frame, id: StreamId)
    requires Printable(f) && !f.Data? && (f.Headers? ==> f.stream == id)
    ensures Queue(c, f).Ok? ==> Touches(c, Queue(c, f).value, id)
    ensures Queue(c, f).Ok? ==> Queue(c, f).value.ready == c.ready && Queue(c, f).value.streams == c.streams
  {
    hide On, Carrying, PayloadOf;
    Logged(c.written, f);
  }

  lemma ReleaseConnTouches(c: Conn, n: U32, id: StreamId)
    ensures ReleaseConn(c, n).Ok?
    ensures var d := ReleaseConn(c, n).value; Touches(c, d, id) && d.ready == c.ready && d.streams == c.streams
  {
    var (window, update) := c.connRecv.Release(n);
    if update.Some? {
      QueueTouches(c.(connRecv := window), WindowUpdate(CONNECTION, update.value), id);
    }
  }

  lemma DrainTouches(c: Conn, id: StreamId)
    ensures DrainReclaimed(c).Ok?
    ensures var d := DrainReclaimed(c).value;
            Touches(c, d, id) && d.ready == c.ready && d.streams == c.streams.(reclaimed := 0)
  {
    var (table, n) := c.streams.TakeReclaimed();
    ReleaseConnTouches(c.(streams := table), n, id);
    if n != 0 {
      TouchesThen(c, c.(streams := table), DrainReclaimed(c).value, id);
    }
  }

  lemma DropTouches(c: Conn, id: StreamId)
    ensures Touches(c, Drop(c, id), id) && Drop(c, id).Entry(id) == None && id !in Drop(c, id).ready
  {
    WithoutFacts(c.ready, id);
  }

  lemma WriteRstTouches(c: Conn, id: StreamId, code: ErrorCode)
    ensures WriteRst(c, id, code).Ok?
    ensures var d := WriteRst(c, id, code).value;
            Touches(c, d, id) && d.Entry(id) == None && d.ready == Without(c.ready, id)
  {
    hide DrainReclaimed, Queue;
    var gone := Drop(c, id);
    var told := gone.(calls := gone.calls + [Cancelled(id)]);
    DropTouches(c, id);
    DrainTouches(told, id);
    var drained := DrainReclaimed(told).value;
    TouchesThen(c, told, drained, id);
    QueueTouches(drained, RstStream(id, code), id);
    ControlFits(drained, RstStream(id, code));
    TouchesThen(c, drained, WriteRst(c, id, code).value, id);
  }

  lemma QueueHeadTouches(c: Conn, id: StreamId, fields: seq<Header>, endStream: bool)
    ensures var r := QueueHead(c, id, fields, endStream);
            r.Ok? ==> Touches(c, r.value, id) && r.value.ready == c.ready && r.value.streams == c.streams
  {
    hide Queue, EncoderState.Block, EncoderState.After;
    var block := c.encoder.Block(fields);
    var d := c.(encoder := c.encoder.After(fields), said := c.said[id := fields]);
    QueueTouches(d, Headers(id, block, endStream, true), id);
    if QueueHead(c, id, fields, endStream).Ok? {
      TouchesThen(c, d, QueueHead(c, id, fields, endStream).value, id);
    }
  }

  /** Driving the state machine leaves a live stream with its new state, or no
      stream at all. */
  lemma ApplyEventTouches(c: Conn, id: StreamId, event: StreamEvent)
    ensures var r := ApplyEvent(c, id, event);
            r.Ok? ==>
              && Touches(c, r.value, id)
              && match r.value.Entry(id) {
                 case None => r.value.ready == Without(c.ready, id)
                 case Some(s) =>
                   && r.value.ready == c.ready
                   && id in c.streams.live
                   && Transition(c.streams.live[id].state, event) == Ok(s.state)
                   && s == c.streams.live[id].(state := s.state)
               }
  {
    hide DrainReclaimed, Transition;
    var (table, r) := c.streams.Apply(id, event);
    if r.Ok? && r.value.Closed? {
      var d := c.(streams := table, ready := Without(c.ready, id), calls := c.calls + [Finish(id)]);
      WithoutFacts(c.ready, id);
      DrainTouches(d, id);
      TouchesThen(c, d, DrainReclaimed(d).value, id);
    } else if r.Err? {
      DropTouches(c, id);
    }
  }

  lemma EnqueueTouches(c: Conn, id: StreamId)
    requires id in c.ready ==> id in c.streams.live && c.streams.live[id].queued
    ensures Touches(c, Enqueue(c, id), id)
    ensures var d := Enqueue(c, id);
            d.Entry(id) == match c.Entry(id)
                           case None => None
                           case Some(s) => Some(s.(queued := s.queued || s.HasPendingSend()))
    ensures id in Enqueue(c, id).ready <==>
            id in c.ready || (id in c.streams.live && c.streams.live[id].HasPendingSend() && !c.streams.live[id].queued)
  {
  }

  // -------------------------------------------------------------------------
  // The handlers.
  // -------------------------------------------------------------------------

  /** A stream's bookkeeping is right, and nothing else was disturbed. */
  ghost predicate Handled(c: Conn, d: Conn, id: StreamId) {
    Touches(c, d, id) && SoundAt(d, id)
  }

  lemma HandledSound(c: Conn, d: Conn, id: StreamId)
    requires Sound(c) && Handled(c, d, id)
    ensures Sound(d)
  {
    TouchesSound(c, d, id);
  }

  lemma WriteRstHandled(b: Conn, c: Conn, id: StreamId, code: ErrorCode)
    requires Touches(b, c, id)
    requires c.ready == b.ready || c.ready == Without(b.ready, id) || id !in b.ready
    ensures WriteRst(c, id, code).Ok? && Handled(b, WriteRst(c, id, code).value, id)
  {
    hide WriteRst;
    WriteRstTouches(c, id, code);
    WithoutFacts(c.ready, id);
    TouchesThen(b, c, WriteRst(c, id, code).value, id);
  }

  lemma ApplyEventHandled(b: Conn, c: Conn, id: StreamId, event: StreamEvent)
    requires Touches(b, c, id) && SoundAt(c, id)
    ensures var r := ApplyEvent(c, id, event); r.Ok? ==> Handled(b, r.value, id)
  {
    hide ApplyEvent;
    var r := ApplyEvent(c, id, event);
    if r.Ok? {
      ApplyEventTouches(c, id, event);
      WithoutFacts(c.ready, id);
      TouchesThen(b, c, r.value, id);
    }
  }

  lemma SendResponseHandled(b: Conn, c: Conn, id: StreamId, fields: seq<Header>, endStream: bool)
    requires Touches(b, c, id) && SoundAt(c, id)
    ensures var r := SendResponse(c, id, fields, endStream); r.Ok? ==> Handled(b, r.value, id)
  {
    hide QueueHead, ApplyEvent;
    var queued := QueueHead(c, id, fields, endStream);
    if queued.Ok? {
      var d := queued.value;
      QueueHeadTouches(c, id, fields, endStream);
      TouchesThen(b, c, d, id);
      if id in d.streams.live {
        var started := d.Put(id, d.streams.live[id].(responseStarted := true));
        TouchesThen(b, d, started, id);
        ApplyEventHandled(b, started, id, SendHeaders(endStream));
      } else {
        ApplyEventHandled(b, d, id, SendHeaders(endStream));
      }
    }
  }

  lemma EnqueueHandled(c: Conn, id: StreamId, s: Stream)
    requires SoundAt(c, id) && id in c.streams.live
    requires s.queued == c.streams.live[id].queued && (s.queued ==> s.HasPendingSend())
    requires Proper(s.(queued := s.HasPendingSend()))
    ensures Handled(c, Enqueue(c.Put(id, s), id), id)
  {
    EnqueueTouches(c.Put(id, s), id);
    TouchesThen(c, c.Put(id, s), Enqueue(c.Put(id, s), id), id);
  }

  lemma SendTrailersHandled(c: Conn, id: StreamId, fields: seq<Header>)
    requires SoundAt(c, id)
    ensures var r := SendTrailers(c, id, fields); r.Ok? ==> Handled(c, r.value, id)
  {
    hide QueueHead, ApplyEvent, ValidTrailers, Enqueue;
    if !ValidTrailers(fields) {
      if id in c.streams.live {
        EnqueueHandled(c, id, c.streams.live[id].(sendEndStream := true));
      } else {
        EnqueueTouches(c, id);
      }
    } else if id in c.streams.live && c.streams.live[id].HasPendingSend() {
      EnqueueHandled(c, id, c.streams.live[id].(pendingTrailers := Some(fields), sendEndStream := true));
    } else {
      var queued := QueueHead(c, id, fields, true);
      if queued.Ok? {
        QueueHeadTouches(c, id, fields, true);
        ApplyEventHandled(c, queued.value, id, SendHeaders(true));
      }
    }
  }

  lemma OpenPeerFacts(c: Conn, id: StreamId)
    requires id !in c.streams.live && id !in c.ready
    ensures var d := c.(streams := c.streams.OpenPeer(id).0); Touches(c, d, id) && SoundAt(d, id)
  {
  }

  lemma RejectStreamHandled(c: Conn, id: StreamId, status: seq<Header>)
    requires SoundAt(c, id)
    ensures var r := RejectStream(c, id, status); r.Ok? ==> Handled(c, r.value, id)
  {
    hide SendResponse, ApplyEvent, WriteRst, Table.OpenPeer;
    if id in c.streams.live {
      SendResponseHandled(c, c, id, status, true);
    } else {
      var (table, admitted) := c.streams.OpenPeer(id);
      var d := c.(streams := table);
      OpenPeerFacts(c, id);
      match admitted
      case Err(Protocol) =>
      case Err(Refused) => WriteRstHandled(c, d, id, RefusedStream);
      case Ok(_) =>
        ApplyEventHandled(c, d, id, RecvHeaders(true));
        if ApplyEvent(d, id, RecvHeaders(true)).Ok? {
          SendResponseHandled(c, ApplyEvent(d, id, RecvHeaders(true)).value, id, status, true);
        }
    }
  }

  lemma ReleaseBodyHandled(c: Conn, id: StreamId, n: U32)
    requires SoundAt(c, id)
    ensures ReleaseBody(c, id, n).Ok? && Handled(c, ReleaseBody(c, id, n).value, id)
  {
    hide DrainReclaimed, ReleaseConn, Touches, Receive.Release, Proper, On, Carrying, Queue;
    if n != 0 && id in c.streams.live {
      var s := c.streams.live[id];
      var (window, update) := s.recvWindow.Release(n);
      var owed := if n > s.pendingConnRelease then 0 else s.pendingConnRelease - n;
      var kept := s.(recvWindow := window, pendingConnRelease := owed);
      var released := c.Put(id, kept);
      PutTouches(c, id, kept);
      ProperIsOutgoing(s, kept);
      if update.Some? {
        QueueTouches(released, WindowUpdate(id, update.value), id);
        ControlFits(released, WindowUpdate(id, update.value));
      }
      var told := if update.None? then released else Queue(released, WindowUpdate(id, update.value)).value;
      if update.Some? {
        TouchesThen(c, released, told, id);
      }
      ReleaseConnTouches(told, n, id);
      var credited := ReleaseConn(told, n).value;
      TouchesThen(c, told, credited, id);
      DrainTouches(credited, id);
      TouchesThen(c, credited, DrainReclaimed(credited).value, id);
    } else {
      TouchesSelf(c, id);
      DrainTouches(c, id);
    }
  }

  lemma TouchesSelf(c: Conn, id: StreamId)
    ensures Touches(c, c, id)
  {
  }

  lemma OnServiceHandled(c: Conn, e: ServiceEvent)
    requires SoundAt(c, e.id)
    ensures OnService(c, e).Ok? ==> Handled(c, OnService(c, e).value, e.id)
  {
    hide SendResponse, SendTrailers, RejectStream, ReleaseBody, WriteRst, Enqueue;
    var id := e.id;
    match e
    case Head(_, fields, endStream) =>
      if id in c.streams.live {
        SendResponseHandled(c, c, id, fields, endStream);
      }
    case BodyData(_, data, endStream) =>
      if id in c.streams.live {
        var s := c.streams.live[id];
        EnqueueHandled(c, id, s.(sendQueue := if data == [] then s.sendQueue else s.sendQueue + [data],
                                 sendEndStream := s.sendEndStream || endStream));
      }
    case Trailers(_, fields) =>
      if id in c.streams.live {
        SendTrailersHandled(c, id, fields);
      }
    case BodyAccepted(_, n) => ReleaseBodyHandled(c, id, n);
    case Gone(_) => GiveUpHandled(c, id, StatusOnly(5, 0, 2));
    case Shed(_) => GiveUpHandled(c, id, StatusOnly(5, 0, 3));
    case ResetStream(_, code) => WriteRstHandled(c, c, id, code);
  }

  lemma GiveUpHandled(c: Conn, id: StreamId, status: seq<Header>)
    requires SoundAt(c, id)
    ensures GiveUp(c, id, status).Ok? ==> Handled(c, GiveUp(c, id, status).value, id)
  {
    hide WriteRst, RejectStream;
    WriteRstHandled(c, c, id, InternalError);
    RejectStreamHandled(c, id, status);
  }

  lemma OnRequestHandled(c: Conn, id: StreamId, fields: seq<Header>, endStream: bool, checked: Checked)
    requires SoundAt(c, id)
    ensures var r := OnRequest(c, id, fields, endStream, checked); r.Ok? ==> Handled(c, r.value, id)
  {
    hide ApplyEvent, WriteRst, Table.OpenPeer, ValidTrailers;
    if id in c.streams.live {
      var told := c.(calls := c.calls + [RequestTrailers(id, fields)]);
      WriteRstHandled(c, c, id, StreamClosed);
      WriteRstHandled(c, c, id, ProtocolError);
      ApplyEventHandled(c, told, id, RecvHeaders(true));
    } else if !c.streams.Find(id).WasClosed? {
      var (table, admitted) := c.streams.OpenPeer(id);
      var d := c.(streams := table);
      OpenPeerFacts(c, id);
      WriteRstHandled(c, c, id, RefusedStream);
      WriteRstHandled(c, d, id, RefusedStream);
      if admitted.Ok? {
        ApplyEventHandled(c, d, id, RecvHeaders(endStream));
        var opened1 := ApplyEvent(d, id, RecvHeaders(endStream));
        if opened1.Ok? {
          OpenedHandled(c, opened1.value, id, endStream, checked);
        }
      }
    }
  }

  /** What is left of a request once its stream is open. */
  /** What the responder is told and what a request declares are no part of the ring. */
  lemma DeclaredHandled(b: Conn, c1: Conn, c2: Conn, id: StreamId, told: seq<Call>)
    requires Handled(b, c1, id) && (id in c1.streams.live ==> id in c2.streams.live)
    requires c2 == (if id in c1.streams.live then
                      c1.Put(id, c1.streams.live[id].(contentLength := c2.streams.live[id].contentLength))
                    else c1)
    ensures Touches(b, c2, id) && Handled(b, c2.(calls := told), id)
  {
    hide On, Carrying, ValidTrailers;
  }

  lemma OpenedHandled(b: Conn, c1: Conn, id: StreamId, endStream: bool, checked: Checked)
    requires Handled(b, c1, id) && id !in b.ready
    ensures checked.Malformed? ==> WriteRst(c1, id, checked.code).Ok? && Handled(b, WriteRst(c1, id, checked.code).value, id)
    ensures checked.BadLength? ==> WriteRst(c1, id, checked.code).Ok? && Handled(b, WriteRst(c1, id, checked.code).value, id)
    ensures checked.Wellformed? ==>
              var c2 := if id in c1.streams.live && checked.contentLength.Some? then
                          c1.Put(id, c1.streams.live[id].(contentLength := checked.contentLength))
                        else c1;
              && WriteRst(c2, id, ProtocolError).Ok? && Handled(b, WriteRst(c2, id, ProtocolError).value, id)
              && Handled(b, c2.(calls := c2.calls + [Dispatch(id, endStream)]), id)
  {
    hide WriteRst, Handled, Touches;
    match checked
    case Malformed(code) =>
      HandledTouches(b, c1, id);
      WriteRstHandled(b, c1, id, code);
    case BadLength(code) =>
      HandledTouches(b, c1, id);
      WriteRstHandled(b, c1, id, code);
    case Wellformed(contentLength) =>
      var c2 := if id in c1.streams.live && contentLength.Some? then
                  c1.Put(id, c1.streams.live[id].(contentLength := contentLength))
                else c1;
      DeclaredHandled(b, c1, c2, id, c2.calls + [Dispatch(id, endStream)]);
      WriteRstHandled(b, c2, id, ProtocolError);
  }

  lemma HandledTouches(b: Conn, c: Conn, id: StreamId)
    requires Handled(b, c, id)
    ensures Touches(b, c, id)
  {
  }

  lemma BodyArrivesHandled(b: Conn, c: Conn, id: StreamId, data: seq<Octet>, endStream: bool)
    requires Touches(b, c, id) && b.ready == c.ready && SoundAt(c, id)
    requires id in c.streams.live && |data| < U32_LIMIT
    ensures var r := BodyArrives(c, id, data, endStream); r.Ok? ==> Handled(b, r.value, id)
  {
    hide ApplyEvent, WriteRst, DrainReclaimed, Touches, Proper, Receive.Record, Stream.ContentLengthMatches;
    var s := c.streams.live[id];
    var window := s.recvWindow.Record(|data|);
    var held := s.(dataReceived := s.dataReceived + |data|,
                   pendingConnRelease := SaturatingAdd(s.pendingConnRelease, |data|),
                   recvWindow := if window.Some? then window.value else s.recvWindow);
    ProperIsOutgoing(s, held);
    var c1 := c.Put(id, held);
    PutTouches(c, id, held);
    TouchesThen(b, c, c1, id);
    WriteRstHandled(b, c1, id, FlowControlError);
    WriteRstHandled(b, c1, id, ProtocolError);
    ApplyEventHandled(b, c1, id, RecvData(endStream));
    var applied := ApplyEvent(c1, id, RecvData(endStream));
    if applied.Ok? {
      var told := applied.value.(calls := applied.value.calls + [Body(id, data, endStream)]);
      CallsTouch(b, applied.value, told.calls, id);
      DrainTouches(told, id);
      TouchesThen(b, told, DrainReclaimed(told).value, id);
      DrainTouches(applied.value, id);
      TouchesThen(b, applied.value, DrainReclaimed(applied.value).value, id);
    }
  }

  lemma OnDataHandled(c: Conn, id: StreamId, data: seq<Octet>, endStream: bool)
    requires SoundAt(c, id) && |data| < U32_LIMIT
    ensures var r := OnData(c, id, data, endStream); r.Ok? ==> Handled(c, r.value, id)
  {
    hide BodyArrives, WriteRst, ReleaseConn;
    var recorded := c.connRecv.Record(|data|);
    if recorded.Some? {
      var c1 := c.(connRecv := recorded.value);
      match c1.streams.Find(id)
      case NeverOpened =>
      case WasClosed =>
        ReleaseConnTouches(c1, |data|, id);
        TouchesThen(c, c1, ReleaseConn(c1, |data|).value, id);
        WriteRstHandled(c, ReleaseConn(c1, |data|).value, id, StreamClosed);
      case Live(_) => BodyArrivesHandled(c, c1, id, data, endStream);
    }
  }

  lemma OnRstHandled(c: Conn, id: StreamId)
    requires SoundAt(c, id)
    ensures OnRst(c, id).Ok? ==> Handled(c, OnRst(c, id).value, id)
  {
    hide DrainReclaimed;
    var gone := Drop(c, id);
    DropTouches(c, id);
    var told := gone.(calls := gone.calls + [Cancelled(id)]);
    DrainTouches(told, id);
    TouchesThen(c, told, DrainReclaimed(told).value, id);
  }

  lemma OnWindowUpdateHandled(c: Conn, id: StreamId, increment: U32)
    requires SoundAt(c, id) && (id != CONNECTION || increment == 0)
    ensures var r := OnWindowUpdate(c, id, increment); r.Ok? ==> Handled(c, r.value, id)
  {
    hide WriteRst, Enqueue;
    WriteRstHandled(c, c, id, ProtocolError);
    WriteRstHandled(c, c, id, FlowControlError);
    if id in c.streams.live {
      var credited := c.streams.live[id].sendWindow.Increase(increment);
      if credited.Some? {
        EnqueueHandled(c, id, c.streams.live[id].(sendWindow := credited.value));
      }
    }
  }
}
