/** What a client connection puts on the wire: every frame but a HEADERS is short
    enough for the peer, and a response begins with HEADERS exactly when the responder
    holds its octets back until something has gone out. */
module ClientHeads {
  import opened Octets
  import opened Frame
  import opened Flow
  import opened HpackCodec
  import opened Streams
  import opened ClientLeg
  import opened Ring
  import opened Sums
  import opened Scheduler
  import opened ClientRuns
  import opened ClientOrder

  // -------------------------------------------------------------------------
  // What a step says on one stream.
  // -------------------------------------------------------------------------

  predicate Waits(c: Conn, id: StreamId) {
    id in c.streams.live && c.streams.live[id].HasPendingSend()
  }

  /** Nothing but HEADERS has been added to a stream's record, and if nothing has, it
      has no more to send than it had. */
  ghost predicate Says(c: Conn, d: Conn, id: StreamId) {
    var was, now := On(c.written, id), On(d.written, id);
    && was <= now && (forall i :: |was| <= i < |now| ==> now[i].Headers?)
    && (now == was && Waits(d, id) ==> Waits(c, id))
    && d.peer == c.peer && Lengthens(c.written, d.written, c.peer.maxFrame)
  }

  /** The wire as it was, with short frames and HEADERS added. */
  ghost predicate Extended(c: Conn, d: Conn) {
    d.peer == c.peer && Lengthens(c.written, d.written, c.peer.maxFrame)
  }

  lemma SaysThen(c: Conn, d: Conn, e: Conn, id: StreamId)
    requires Says(c, d, id) && Says(d, e, id)
    ensures Says(c, e, id)
  {
    hide On, Lengthens, Waits;
    var a, b, now := On(c.written, id), On(d.written, id), On(e.written, id);
    assert forall i :: |a| <= i < |b| ==> now[i] == b[i];
    LengthensThen(c.written, d.written, e.written, c.peer.maxFrame);
  }

  lemma Nothing(s: seq<Frame>, max: nat)
    ensures Lengthens(s, s, max)
  {
  }

  /** No frames, and no stream with more to send. */
  lemma QuietSays(c: Conn, d: Conn, id: StreamId)
    requires d.written == c.written && d.peer == c.peer && (Waits(d, id) ==> Waits(c, id))
    ensures Says(c, d, id)
  {
    hide On, Waits, Lengthens;
    Nothing(c.written, c.peer.maxFrame);
  }

  /** A frame that is no part of a response. */
  lemma QueueSays(c: Conn, f: Frame, id: StreamId)
    requires Printable(f) && !f.Headers? && !f.Data? && |PayloadOf(f)| <= 8
    ensures Queue(c, f).Ok? && Says(c, Queue(c, f).value, id)
  {
    hide On, PayloadOf;
    Logged(c.written, f);
  }

  lemma QueueHeadSays(c: Conn, id: StreamId, fields: seq<Header>, endStream: bool)
    ensures QueueHead(c, id, fields, endStream).Ok? ==>
              var d := QueueHead(c, id, fields, endStream).value;
              && Says(c, d, id) && d.streams == c.streams
              && On(d.written, id) == On(c.written, id) + [Headers(id, c.encoder.Block(fields), endStream, true)]
  {
    hide On, EncoderState.Block, EncoderState.After;
    Logged(c.written, Headers(id, c.encoder.Block(fields), endStream, true));
  }

  lemma ReleaseConnSays(c: Conn, n: U32, id: StreamId)
    ensures ReleaseConn(c, n).Ok? && Says(c, ReleaseConn(c, n).value, id)
  {
    hide Receive.Release, Says, Queue;
    var (window, update) := c.connRecv.Release(n);
    var credited := c.(connRecv := window);
    QuietSays(c, credited, id);
    if update.Some? {
      QueueSays(credited, WindowUpdate(CONNECTION, update.value), id);
      SaysThen(c, credited, Queue(credited, WindowUpdate(CONNECTION, update.value)).value, id);
    }
  }

  lemma DrainSays(c: Conn, id: StreamId)
    ensures DrainReclaimed(c).Ok? && Says(c, DrainReclaimed(c).value, id)
  {
    hide ReleaseConn, Says;
    var (table, n) := c.streams.TakeReclaimed();
    var taken := c.(streams := table);
    QuietSays(c, taken, id);
    if n != 0 {
      ReleaseConnSays(taken, n, id);
      SaysThen(c, taken, ReleaseConn(taken, n).value, id);
    }
  }

  lemma WriteRstSays(c: Conn, id: StreamId, code: ErrorCode)
    ensures WriteRst(c, id, code).Ok? && Says(c, WriteRst(c, id, code).value, id)
  {
    hide DrainReclaimed, Says, Queue, ErrorNumber;
    var gone := Drop(c, id);
    var told := gone.(calls := gone.calls + [Cancelled(id)]);
    QuietSays(c, told, id);
    DrainSays(told, id);
    var drained := DrainReclaimed(told).value;
    QueueSays(drained, RstStream(id, code), id);
    SaysThen(c, told, drained, id);
    SaysThen(c, drained, Queue(drained, RstStream(id, code)).value, id);
  }

  lemma ApplySays(c: Conn, id: StreamId, event: StreamEvent)
    ensures ApplyEvent(c, id, event).Ok? ==> Says(c, ApplyEvent(c, id, event).value, id)
  {
    hide DrainReclaimed, Says, Transition;
    var (table, r) := c.streams.Apply(id, event);
    if r.Ok? {
      var moved := c.(streams := table);
      if r.value.Closed? {
        var told := moved.(ready := Without(c.ready, id), calls := c.calls + [Finish(id)]);
        QuietSays(c, told, id);
        DrainSays(told, id);
        SaysThen(c, told, DrainReclaimed(told).value, id);
      } else {
        QuietSays(c, moved, id);
      }
    } else {
      QuietSays(c, Drop(c, id).(pendingReset := c.pendingReset + [(id, r.error)]), id);
    }
  }

  // -------------------------------------------------------------------------
  // The handlers.
  // -------------------------------------------------------------------------

  lemma SendResponseSays(c: Conn, id: StreamId, fields: seq<Header>, endStream: bool)
    ensures SendResponse(c, id, fields, endStream).Ok? ==> Says(c, SendResponse(c, id, fields, endStream).value, id)
  {
    hide QueueHead, ApplyEvent, Says, EncoderState.Block, On;
    var queued := QueueHead(c, id, fields, endStream);
    if queued.Ok? {
      QueueHeadSays(c, id, fields, endStream);
      var started := if id in queued.value.streams.live then
                       queued.value.Put(id, queued.value.streams.live[id].(responseStarted := true))
                     else queued.value;
      QuietSays(queued.value, started, id);
      SaysThen(c, queued.value, started, id);
      ApplySays(started, id, SendHeaders(endStream));
      if ApplyEvent(started, id, SendHeaders(endStream)).Ok? {
        SaysThen(c, started, ApplyEvent(started, id, SendHeaders(endStream)).value, id);
      }
    }
  }

  lemma DirectTrailersSay(c: Conn, id: StreamId, fields: seq<Header>)
    ensures var queued := QueueHead(c, id, fields, true);
            var r := if queued.Ok? then ApplyEvent(queued.value, id, SendHeaders(true)) else queued;
            r.Ok? ==> Says(c, r.value, id)
  {
    hide QueueHead, ApplyEvent, Says, EncoderState.Block, On;
    var queued := QueueHead(c, id, fields, true);
    if queued.Ok? {
      QueueHeadSays(c, id, fields, true);
      ApplySays(queued.value, id, SendHeaders(true));
      var r := ApplyEvent(queued.value, id, SendHeaders(true));
      if r.Ok? {
        SaysThen(c, queued.value, r.value, id);
      }
    }
  }

  lemma SendTrailersSays(c: Conn, id: StreamId, fields: seq<Header>)
    requires ValidTrailers(fields)
    ensures SendTrailers(c, id, fields).Ok? ==> Says(c, SendTrailers(c, id, fields).value, id)
  {
    hide QueueHead, ApplyEvent, Says, ValidTrailers;
    DirectTrailersSay(c, id, fields);
    if Waits(c, id) {
      QuietSays(c, SendTrailers(c, id, fields).value, id);
    }
  }

  lemma RejectStreamSays(c: Conn, id: StreamId, status: seq<Header>)
    ensures RejectStream(c, id, status).Ok? ==> Says(c, RejectStream(c, id, status).value, id)
  {
    hide SendResponse, ApplyEvent, WriteRst, Says;
    SendResponseSays(c, id, status, true);
    if id !in c.streams.live {
      var (table, admitted) := c.streams.OpenPeer(id);
      var entered := c.(streams := table);
      QuietSays(c, entered, id);
      if admitted == Err(Refused) {
        WriteRstSays(entered, id, RefusedStream);
        SaysThen(c, entered, WriteRst(entered, id, RefusedStream).value, id);
      } else if admitted.Ok? {
        ApplySays(entered, id, RecvHeaders(true));
        var received := ApplyEvent(entered, id, RecvHeaders(true));
        if received.Ok? {
          SaysThen(c, entered, received.value, id);
          SendResponseSays(received.value, id, status, true);
          var r := SendResponse(received.value, id, status, true);
          if r.Ok? {
            SaysThen(c, received.value, r.value, id);
          }
        }
      }
    }
  }

  lemma ReleaseBodySays(c: Conn, id: StreamId, n: U32)
    ensures ReleaseBody(c, id, n).Ok? ==> Says(c, ReleaseBody(c, id, n).value, id)
  {
    hide DrainReclaimed, ReleaseConn, Receive.Release, Says, Queue;
    QuietSays(c, c, id);
    if n != 0 && id in c.streams.live {
      var s := c.streams.live[id];
      var (window, update) := s.recvWindow.Release(n);
      var owed := if n > s.pendingConnRelease then 0 else s.pendingConnRelease - n;
      var released := c.Put(id, s.(recvWindow := window, pendingConnRelease := owed));
      QuietSays(c, released, id);
      var told := released;
      if update.Some? {
        QueueSays(released, WindowUpdate(id, update.value), id);
        told := Queue(released, WindowUpdate(id, update.value)).value;
        SaysThen(c, released, told, id);
      }
      ReleaseConnSays(told, n, id);
      SaysThen(c, told, ReleaseConn(told, n).value, id);
      DrainSays(ReleaseConn(told, n).value, id);
      SaysThen(c, ReleaseConn(told, n).value, ReleaseBody(c, id, n).value, id);
    } else if n != 0 {
      DrainSays(c, id);
    }
  }

  /** Octets, or an end, from the responder of a stream on which nothing has gone out:
      DATA with either, or trailers that are malformed and become a bare end. */
  predicate Early(c: Conn, e: ServiceEvent) {
    && e.id in c.streams.live && On(c.written, e.id) == []
    && match e
       case BodyData(_, data, endStream) => data != [] || endStream
       case Trailers(_, fields) => !ValidTrailers(fields)
       case _ => false
  }

  /** A response begins with HEADERS, and until they have gone out nothing waits. */
  predicate BegunAt(c: Conn, id: StreamId) {
    var sent := On(c.written, id);
    (sent != [] ==> sent[0].Headers?) && (sent == [] ==> !Waits(c, id))
  }

  lemma SaysBegun(c: Conn, d: Conn, id: StreamId)
    requires Says(c, d, id)
    ensures BegunAt(c, id) ==> BegunAt(d, id)
  {
    hide On, Waits, Lengthens;
    var was, now := On(c.written, id), On(d.written, id);
    if was != [] {
      assert now[0] == was[0];
    }
  }

  lemma BodyBegun(c: Conn, e: ServiceEvent)
    requires e.BodyData?
    ensures BegunAt(c, e.id) ==> (BegunAt(OnService(c, e).value, e.id) <==> !Early(c, e))
    ensures Extended(c, OnService(c, e).value)
  {
    hide On;
    Nothing(c.written, c.peer.maxFrame);
  }

  lemma BareEndBegun(c: Conn, e: ServiceEvent)
    requires e.Trailers? && !ValidTrailers(e.fields)
    ensures BegunAt(c, e.id) ==> (BegunAt(OnService(c, e).value, e.id) <==> !Early(c, e))
    ensures Extended(c, OnService(c, e).value)
  {
    hide On, ValidTrailers;
    Nothing(c.written, c.peer.maxFrame);
  }

  lemma OnServiceBegun(c: Conn, e: ServiceEvent)
    requires OnService(c, e).Ok?
    ensures BegunAt(c, e.id) ==> (BegunAt(OnService(c, e).value, e.id) <==> !Early(c, e))
    ensures Extended(c, OnService(c, e).value)
  {
    hide SendResponse, SendTrailers, ReleaseBody, WriteRst, RejectStream, Says, BegunAt, On, ValidTrailers, Lengthens;
    var d := OnService(c, e).value;
    QuietSays(c, c, e.id);
    match e {
      case Head(id, fields, endStream) => SendResponseSays(c, id, fields, endStream);
      case BodyData(_, _, _) => BodyBegun(c, e);
      case Trailers(id, fields) =>
        if ValidTrailers(fields) {
          SendTrailersSays(c, id, fields);
        } else {
          BareEndBegun(c, e);
        }
      case BodyAccepted(id, n) => ReleaseBodySays(c, id, n);
      case Gone(id) =>
        WriteRstSays(c, id, InternalError);
        RejectStreamSays(c, id, StatusOnly(5, 0, 2));
      case Shed(id) =>
        WriteRstSays(c, id, InternalError);
        RejectStreamSays(c, id, StatusOnly(5, 0, 3));
      case ResetStream(id, code) => WriteRstSays(c, id, code);
    }
    if Says(c, d, e.id) {
      SaysBegun(c, d, e.id);
      SaysPeer(c, d, e.id);
    }
  }

  lemma SaysPeer(c: Conn, d: Conn, id: StreamId)
    requires Says(c, d, id)
    ensures Extended(c, d)
  {
    hide On, Waits, Lengthens;
  }

  // -------------------------------------------------------------------------
  // What the peer sends.
  // -------------------------------------------------------------------------

  lemma OnRequestSays(c: Conn, id: StreamId, fields: seq<Header>, endStream: bool, checked: Checked)
    ensures var r := OnRequest(c, id, fields, endStream, checked); r.Ok? ==> Says(c, r.value, id)
  {
    hide ApplyEvent, WriteRst, Says, ValidTrailers;
    if id in c.streams.live {
      TrailersArriveSay(c, id, fields, endStream);
    } else {
      WriteRstSays(c, id, RefusedStream);
      var (table, admitted) := c.streams.OpenPeer(id);
      var entered := c.(streams := table);
      QuietSays(c, entered, id);
      WriteRstSays(entered, id, RefusedStream);
      SaysThen(c, entered, WriteRst(entered, id, RefusedStream).value, id);
      var received := ApplyEvent(entered, id, RecvHeaders(endStream));
      if admitted.Ok? && received.Ok? {
        ApplySays(entered, id, RecvHeaders(endStream));
        SaysThen(c, entered, received.value, id);
        CheckedSays(received.value, id, endStream, checked);
        SaysThen(c, received.value, CheckedRequest(received.value, id, endStream, checked), id);
      }
    }
  }

  lemma TrailersArriveSay(c: Conn, id: StreamId, fields: seq<Header>, endStream: bool)
    requires id in c.streams.live
    ensures var r := RequestTrailersArrive(c, id, fields, endStream); r.Ok? ==> Says(c, r.value, id)
  {
    hide ApplyEvent, WriteRst, Says, ValidTrailers;
    WriteRstSays(c, id, StreamClosed);
    WriteRstSays(c, id, ProtocolError);
    var told := c.(calls := c.calls + [RequestTrailers(id, fields)]);
    QuietSays(c, told, id);
    ApplySays(told, id, RecvHeaders(true));
    if ApplyEvent(told, id, RecvHeaders(true)).Ok? {
      SaysThen(c, told, ApplyEvent(told, id, RecvHeaders(true)).value, id);
    }
  }

  /** A request the state machine has taken, by what validation made of it. */
  function CheckedRequest(c: Conn, id: StreamId, endStream: bool, checked: Checked): Conn {
    match checked
    case Malformed(code) => Reset(c, id, code)
    case BadLength(code) => Reset(c, id, code)
    case Wellformed(contentLength) =>
      var d := if id in c.streams.live && contentLength.Some? then
                 c.Put(id, c.streams.live[id].(contentLength := contentLength))
               else c;
      if endStream && id in d.streams.live && !d.streams.live[id].ContentLengthMatches() then Reset(d, id, ProtocolError)
      else d.(calls := d.calls + [Dispatch(id, endStream)])
  }

  function Reset(c: Conn, id: StreamId, code: ErrorCode): Conn {
    var r := WriteRst(c, id, code);
    if r.Ok? then r.value else c
  }

  lemma CheckedSays(c: Conn, id: StreamId, endStream: bool, checked: Checked)
    ensures Says(c, CheckedRequest(c, id, endStream, checked), id)
  {
    hide WriteRst, Says;
    match checked
    case Malformed(code) => WriteRstSays(c, id, code);
    case BadLength(code) => WriteRstSays(c, id, code);
    case Wellformed(contentLength) =>
      var d := if id in c.streams.live && contentLength.Some? then
                 c.Put(id, c.streams.live[id].(contentLength := contentLength))
               else c;
      QuietSays(c, d, id);
      WriteRstSays(d, id, ProtocolError);
      SaysThen(c, d, WriteRst(d, id, ProtocolError).value, id);
      QuietSays(c, d.(calls := d.calls + [Dispatch(id, endStream)]), id);
  }

  lemma BodyArrivesSays(c: Conn, id: StreamId, data: seq<Octet>, endStream: bool)
    requires id in c.streams.live && |data| < U32_LIMIT
    ensures var r := BodyArrives(c, id, data, endStream); r.Ok? ==> Says(c, r.value, id)
  {
    hide ApplyEvent, WriteRst, DrainReclaimed, Says, Receive.Record, Stream.ContentLengthMatches;
    var s := c.streams.live[id];
    var window := s.recvWindow.Record(|data|);
    var held := s.(dataReceived := s.dataReceived + |data|,
                   pendingConnRelease := SaturatingAdd(s.pendingConnRelease, |data|),
                   recvWindow := if window.Some? then window.value else s.recvWindow);
    var d := c.Put(id, held);
    QuietSays(c, d, id);
    WriteRstSays(d, id, FlowControlError);
    SaysThen(c, d, WriteRst(d, id, FlowControlError).value, id);
    WriteRstSays(d, id, ProtocolError);
    SaysThen(c, d, WriteRst(d, id, ProtocolError).value, id);
    ApplySays(d, id, RecvData(endStream));
    var applied := ApplyEvent(d, id, RecvData(endStream));
    if applied.Ok? {
      SaysThen(c, d, applied.value, id);
      var told := if data != [] || endStream then applied.value.(calls := applied.value.calls + [Body(id, data, endStream)])
                  else applied.value;
      QuietSays(applied.value, told, id);
      SaysThen(c, applied.value, told, id);
      DrainSays(told, id);
      SaysThen(c, told, DrainReclaimed(told).value, id);
    }
  }

  lemma OnDataSays(c: Conn, id: StreamId, data: seq<Octet>, endStream: bool)
    requires |data| < U32_LIMIT
    ensures var r := OnData(c, id, data, endStream); r.Ok? ==> Says(c, r.value, id)
  {
    hide BodyArrives, ReleaseConn, WriteRst, Says, Receive.Record;
    var recorded := c.connRecv.Record(|data|);
    if recorded.Some? {
      var c1 := c.(connRecv := recorded.value);
      QuietSays(c, c1, id);
      match c1.streams.Find(id)
      case NeverOpened =>
      case WasClosed =>
        ReleaseConnSays(c1, |data|, id);
        var released := ReleaseConn(c1, |data|).value;
        SaysThen(c, c1, released, id);
        WriteRstSays(released, id, StreamClosed);
        SaysThen(c, released, WriteRst(released, id, StreamClosed).value, id);
      case Live(_) =>
        BodyArrivesSays(c1, id, data, endStream);
        var r := BodyArrives(c1, id, data, endStream);
        if r.Ok? {
          SaysThen(c, c1, r.value, id);
        }
    }
  }

  lemma OnRstSays(c: Conn, id: StreamId)
    ensures OnRst(c, id).Ok? ==> Says(c, OnRst(c, id).value, id)
  {
    hide DrainReclaimed, Says;
    QuietSays(c, c, id);
    var gone := Drop(c, id);
    var told := gone.(calls := gone.calls + [Cancelled(id)]);
    QuietSays(c, told, id);
    DrainSays(told, id);
    SaysThen(c, told, DrainReclaimed(told).value, id);
  }

  lemma OnWindowUpdateSays(c: Conn, id: StreamId, increment: U32)
    ensures OnWindowUpdate(c, id, increment).Ok? ==> Says(c, OnWindowUpdate(c, id, increment).value, id)
  {
    hide WriteRst, Says;
    WriteRstSays(c, id, ProtocolError);
    WriteRstSays(c, id, FlowControlError);
    QuietSays(c, c, id);
    if increment != 0 && id == CONNECTION {
      var credited := c.connSend.Increase(increment);
      if credited.Some? {
        QuietSays(c, c.(connSend := credited.value), id);
      }
    } else if increment != 0 && id in c.streams.live {
      var credited := c.streams.live[id].sendWindow.Increase(increment);
      if credited.Some? {
        QuietSays(c, Enqueue(c.Put(id, c.streams.live[id].(sendWindow := credited.value)), id), id);
      }
    }
  }

  // -------------------------------------------------------------------------
  // The writer.
  // -------------------------------------------------------------------------

  /** A visit adds to a record that has begun, and its DATA fits the peer's limit. */
  lemma SendBodySays(c: Conn, id: StreamId, t: Taken)
    requires id in c.streams.live && |t.chunk| <= c.peer.maxFrame && |t.chunk| < U32_LIMIT
    ensures var r := SendBody(c, id, t);
            r.Ok? ==> Extended(c, r.value) && On(c.written, id) <= On(r.value.written, id)
  {
    hide SendBody, Paid, ApplyEvent, Says, On, Lengthens;
    PaidFacts(c, id, t);
    var r := SendBody(c, id, t);
    Nothing(c.written, c.peer.maxFrame);
    if r.Ok? {
      PaidPeer(c, id, t);
      var paid := Paid(c, id, t).value;
      if t.chunk != [] || t.endStream {
        var f := Data(id, t.chunk, t.endStream);
        DataExtends(paid, f);
        var queued := Queue(paid, f).value;
        ApplySays(queued, id, SendData(t.endStream));
        SaysFacts(queued, r.value, id);
        LengthensThen(c.written, queued.written, r.value.written, c.peer.maxFrame);
      }
    }
  }

  lemma PaidPeer(c: Conn, id: StreamId, t: Taken)
    requires id in c.streams.live && |t.chunk| < U32_LIMIT
    ensures Paid(c, id, t).Some? ==> Paid(c, id, t).value.peer == c.peer
  {
  }

  lemma DataExtends(c: Conn, f: Frame)
    requires f.Data? && |f.data| <= c.peer.maxFrame
    ensures Queue(c, f).Ok? ==>
              var d := Queue(c, f).value;
              && d.peer == c.peer && Lengthens(c.written, d.written, c.peer.maxFrame)
              && On(d.written, f.stream) == On(c.written, f.stream) + [f]
  {
    hide On;
    Logged(c.written, f);
  }

  lemma SaysFacts(c: Conn, d: Conn, id: StreamId)
    requires Says(c, d, id)
    ensures d.peer == c.peer && Lengthens(c.written, d.written, c.peer.maxFrame) && On(c.written, id) <= On(d.written, id)
  {
  }

  lemma BudgetWithin(c: Conn, s: Stream)
    ensures Budget(c, s) <= c.peer.maxFrame && Budget(c, s) <= SEND_BUDGET
  {
  }

  lemma VisitBegun(c: Conn, id: StreamId)
    requires Waits(c, id) && VisitReady(c, id).Ok?
    requires c.streams.live[id].pendingTrailers.Some? ==> ValidTrailers(c.streams.live[id].pendingTrailers.value)
    ensures BegunAt(c, id) ==> BegunAt(VisitReady(c, id).value.conn, id)
    ensures Extended(c, VisitReady(c, id).value.conn)
  {
    hide SendBody, SendTrailers, Take, Stream.PendingSend, Says, On, Lengthens, ValidTrailers, Budget;
    var s := c.streams.live[id];
    var budget := Budget(c, s);
    var d := VisitReady(c, id).value.conn;
    Nothing(c.written, c.peer.maxFrame);
    if !(s.PendingSend() > 0 && budget == 0) {
      var t := Take(s, budget);
      TakeWithin(s, budget);
      BudgetWithin(c, s);
      TakenTrailers(s, budget);
      if t.chunk != [] || t.endStream || t.trailers.Some? {
        SendBodySays(c, id, t);
        var sent := SendBody(c, id, t).value;
        var c2 := if t.chunk == [] then sent else sent.(calls := sent.calls + [Released(id, |t.chunk|)]);
        if t.trailers.Some? {
          SendTrailersSays(c2, id, t.trailers.value);
          SaysFacts(c2, d, id);
          LengthensThen(c.written, c2.written, d.written, c.peer.maxFrame);
        }
      }
    }
  }

  lemma TakenTrailers(s: Stream, budget: nat)
    ensures Take(s, budget).trailers.Some? ==> Take(s, budget).trailers == s.pendingTrailers
  {
  }

  /** Every response begins with HEADERS. */
  ghost predicate Begun(c: Conn) {
    forall id: StreamId :: BegunAt(c, id)
  }

  lemma ElsewhereBegun(c: Conn, d: Conn, id: StreamId)
    requires Elsewhere(c, d, id) && (BegunAt(c, id) ==> BegunAt(d, id))
    ensures Begun(c) ==> Begun(d)
  {
    hide On;
    if Begun(c) {
      forall j: StreamId
        ensures BegunAt(d, j)
      {
        assert BegunAt(c, j);
        if j != id {
          assert d.Entry(j) == c.Entry(j);
        }
      }
    }
  }

  lemma ExtendedThen(c: Conn, d: Conn, e: Conn)
    requires Extended(c, d) && Extended(d, e)
    ensures Extended(c, e)
  {
    hide Lengthens;
    LengthensThen(c.written, d.written, e.written, c.peer.maxFrame);
  }

  lemma {:induction false} LapBegun(at: LapEnd, lap: seq<StreamId>)
    requires Lapping(at, lap)
    ensures RunLap(at, lap).Ok? ==>
              var d := RunLap(at, lap).value.conn; Extended(at.conn, d) && (Begun(at.conn) ==> Begun(d))
    decreases |lap|
  {
    hide VisitReady, VisitEffect, BegunAt, Begun, Extended, Proper, On, ValidTrailers;
    if lap == [] {
      Unextended(at.conn, at.conn);
    } else {
      var id := lap[0];
      NextInLap(at, lap);
      VisitFacts(at.conn, id);
      var v := VisitReady(at.conn, id);
      if v.Ok? {
        VisitKeepsLap(at, lap, v.value);
        HeldTrailersAreValid(at.conn.streams.live[id]);
        VisitBegun(at.conn, id);
        VisitElsewhere(at.conn, id, v.value);
        ElsewhereBegun(at.conn, v.value.conn, id);
        LapBegun(LapNext(at, id, v.value), lap[1..]);
        var r := RunLap(LapNext(at, id, v.value), lap[1..]);
        if r.Ok? {
          ExtendedThen(at.conn, v.value.conn, r.value.conn);
        }
      }
    }
  }

  lemma Unextended(c: Conn, d: Conn)
    requires d.written == c.written && d.peer == c.peer
    ensures Extended(c, d)
  {
    Nothing(c.written, c.peer.maxFrame);
  }

  lemma HeldTrailersAreValid(s: Stream)
    requires Proper(s)
    ensures s.pendingTrailers.Some? ==> ValidTrailers(s.pendingTrailers.value)
  {
    hide ValidTrailers;
  }

  /** The same frames, and no stream with more to send. */
  lemma SameBegun(c: Conn, d: Conn)
    requires d.written == c.written && forall id: StreamId :: Waits(d, id) ==> Waits(c, id)
    ensures Begun(c) ==> Begun(d)
  {
    hide On, Waits;
    if Begun(c) {
      forall id: StreamId
        ensures BegunAt(d, id)
      {
        assert BegunAt(c, id);
      }
    }
  }

  lemma OneLapBegun(c: Conn)
    requires Sound(c)
    ensures OneLap(c).Ok? ==> Extended(c, OneLap(c).value.0) && (Begun(c) ==> Begun(OneLap(c).value.0))
  {
    hide RunLap, Lapping, Sound, Begun, Extended, On;
    var start := LapEnd(c.(ready := []), [], [], false);
    LapStarts(c);
    SameBegun(c, start.conn);
    Unextended(c, start.conn);
    LapBegun(start, c.ready);
    var r := RunLap(start, c.ready);
    if r.Ok? {
      var e := r.value;
      SameBegun(e.conn, Rebuild(e));
      Unextended(e.conn, Rebuild(e));
      ExtendedThen(c, start.conn, e.conn);
      ExtendedThen(c, e.conn, Rebuild(e));
    }
  }

  lemma {:induction false} FlushBegun(c: Conn)
    ensures FlushResets(c).Ok? ==> Extended(c, FlushResets(c).value) && (Begun(c) ==> Begun(FlushResets(c).value))
    decreases |c.pendingReset|
  {
    hide WriteRst, Begun, Extended;
    if c.pendingReset == [] {
      Unextended(c, c);
    } else {
      var last := c.pendingReset[|c.pendingReset| - 1];
      var b := c.(pendingReset := c.pendingReset[..|c.pendingReset| - 1]);
      FlushKeeps(b, last.0, last.1);
      ResetBegun(c, b, last.0, last.1);
      var d := WriteRst(b, last.0, last.1).value;
      FlushBegun(d);
      if FlushResets(d).Ok? {
        ExtendedThen(c, d, FlushResets(d).value);
      }
    }
  }

  lemma ResetBegun(c: Conn, b: Conn, id: StreamId, code: ErrorCode)
    requires b == c.(pendingReset := b.pendingReset)
    ensures WriteRst(b, id, code).Ok?
    ensures var d := WriteRst(b, id, code).value; Extended(c, d) && (Begun(c) ==> Begun(d))
  {
    hide WriteRst, Begun, Extended, Says, RingMoves, Carrying, On;
    SameBegun(c, b);
    Unextended(c, b);
    WriteRstTouches(b, id, code);
    WriteRstSays(b, id, code);
    var d := WriteRst(b, id, code).value;
    SaysBegun(b, d, id);
    SaysPeer(b, d, id);
    ElsewhereBegun(b, d, id);
    ExtendedThen(c, b, d);
  }

  lemma {:induction false} PumpBegun(c: Conn)
    requires Sound(c)
    ensures Pump(c).Ok? ==> Extended(c, Pump(c).value) && (Begun(c) ==> Begun(Pump(c).value))
    decreases Total(c.streams.live, Load)
  {
    hide OneLap, FlushResets, Sound, Begun, Extended, Total, Load;
    OneLapFacts(c);
    if c.ready == [] || c.outLen >= MAX_WRITE_QUEUE {
      FlushBegun(c);
    } else if OneLap(c).Ok? {
      OneLapBegun(c);
      var (d, wrote) := OneLap(c).value;
      if wrote {
        PumpBegun(d);
        if Pump(d).Ok? {
          ExtendedThen(c, d, Pump(d).value);
        }
      } else {
        FlushBegun(d);
        if FlushResets(d).Ok? {
          ExtendedThen(c, d, FlushResets(d).value);
        }
      }
    }
  }

  // -------------------------------------------------------------------------
  // Whole runs.
  // -------------------------------------------------------------------------

  lemma SettingsBegun(c: Conn, params: seq<Param>)
    requires OnSettings(c, params).Ok? && DEFAULT_MAX_FRAME_SIZE <= c.peer.maxFrame
    ensures var d := OnSettings(c, params).value;
            && Lengthens(c.written, d.written, c.peer.maxFrame)
            && (Begun(c) ==> Begun(d))
  {
    hide On, ApplySettings, EncoderState.SetMax, Table.ApplyInitialWindowDelta, Lengthens;
    SettingsFacts(c, params);
    var d := OnSettings(c, params).value;
    AckLengthens(c.written, c.peer.maxFrame);
    var delta := d.peer.initialWindow - c.peer.initialWindow;
    if delta != 0 {
      MovedWaits(c.streams, delta);
    }
    if Begun(c) {
      forall id: StreamId
        ensures BegunAt(d, id)
      {
        assert BegunAt(c, id);
      }
    }
  }

  lemma AckLengthens(written: seq<Frame>, max: nat)
    ensures Lengthens(written, written + [Settings(true, [])], max)
  {
  }

  lemma MovedWaits(t: Table, delta: I32)
    requires t.ApplyInitialWindowDelta(delta).Some?
    ensures var u := t.ApplyInitialWindowDelta(delta).value;
            && u.live.Keys == t.live.Keys
            && forall id :: id in t.live ==> u.live[id].HasPendingSend() == t.live[id].HasPendingSend()
  {
  }

  /** Everything about one stream. */
  lemma AboutBegun(c: Conn, s: Stimulus)
    requires Sound(c) && Fits(s) && !Wide(s) && Step(c, s).Ok?
    ensures Extended(c, Step(c, s).value)
    ensures BegunAt(c, About(s)) ==>
              (BegunAt(Step(c, s).value, About(s)) <==> !(s.FromService? && Early(c, s.event)))
  {
    hide Sound, OnService, OnRequest, RejectStream, OnData, OnRst, OnWindowUpdate, Says, BegunAt, Extended, Early, On;
    var id, d := About(s), Step(c, s).value;
    if s.FromService? {
      OnServiceBegun(c, s.event);
    } else {
      match s {
        case RequestArrives(_, fields, endStream, checked) => OnRequestSays(c, id, fields, endStream, checked);
        case OversizedArrives(_) => RejectStreamSays(c, id, StatusOnly(4, 3, 1));
        case DataArrives(_, data, endStream) => OnDataSays(c, id, data, endStream);
        case ResetArrives(_) => OnRstSays(c, id);
        case CreditArrives(_, increment) => OnWindowUpdateSays(c, id, increment);
        case SocketTakes(_) => QuietSays(c, d, id);
        case LimitMoves(_) => QuietSays(c, d, id);
        case DrainCommits =>
          var b := c.(drainCommitted := true);
          QuietSays(c, b, id);
          QueueSays(b, GoAway(c.streams.highestPeer, NoError, []), id);
          SaysThen(c, b, d, id);
      }
      SaysBegun(c, d, id);
      SaysPeer(c, d, id);
    }
  }

  /** One step: frames of its own are short but for HEADERS, and every response still
      begins with HEADERS exactly if the step was not an early word. */
  lemma StepBegun(c: Conn, s: Stimulus)
    requires Sound(c) && Fits(s) && Step(c, s).Ok?
    ensures Lengthens(c.written, Step(c, s).value.written, c.peer.maxFrame)
    ensures Begun(c) ==> (Begun(Step(c, s).value) <==> !(s.FromService? && Early(c, s.event)))
  {
    hide Sound, OnService, OnRequest, RejectStream, OnData, OnRst, OnWindowUpdate, OnSettings, Pump, BegunAt, Early, On, Lengthens;
    var d := Step(c, s).value;
    if s.WriterRuns? {
      PumpBegun(c);
    } else if s.SettingsArrive? {
      SoundFrame(c);
      SettingsBegun(c, s.params);
    } else if Wide(s) {
      CreditSound(c, s.increment);
      SameBegun(c, d);
      Nothing(c.written, c.peer.maxFrame);
    } else {
      AboutBegun(c, s);
      StepHandled(c, s);
      AboutElsewhere(c, d, About(s));
      assert Begun(c) ==> BegunAt(c, About(s));
      if BegunAt(c, About(s)) ==> BegunAt(d, About(s)) {
        ElsewhereBegun(c, d, About(s));
      }
      assert Begun(d) ==> BegunAt(d, About(s));
    }
  }

  lemma AboutElsewhere(c: Conn, d: Conn, id: StreamId)
    requires Handled(c, d, id)
    ensures Elsewhere(c, d, id)
  {
    hide On;
  }

  ghost predicate AlwaysBegun(c: Conn, stimuli: seq<Stimulus>)
    requires Sound(c) && forall s :: s in stimuli ==> Fits(s)
    decreases |stimuli|
  {
    Begun(c) &&
    (stimuli == [] ||
     (StepSound(c, stimuli[0]);
      Step(c, stimuli[0]).Ok? ==> AlwaysBegun(Step(c, stimuli[0]).value, stimuli[1..])))
  }

  /** The responder gives no octets and no end before something has gone out. */
  ghost predicate NeverEarly(c: Conn, stimuli: seq<Stimulus>)
    requires Sound(c) && forall s :: s in stimuli ==> Fits(s)
    decreases |stimuli|
  {
    stimuli == [] ||
    (StepSound(c, stimuli[0]);
     Step(c, stimuli[0]).Ok? ==>
       && !(stimuli[0].FromService? && Early(c, stimuli[0].event))
       && NeverEarly(Step(c, stimuli[0]).value, stimuli[1..]))
  }

  /** Over every run: each response begins with HEADERS, and none holds anything to
      send before they have gone out, if and only if the responder is never early. */
  lemma {:induction false} HeadersComeFirst(c: Conn, stimuli: seq<Stimulus>)
    requires Sound(c) && (forall s :: s in stimuli ==> Fits(s)) && Begun(c)
    ensures AlwaysBegun(c, stimuli) <==> NeverEarly(c, stimuli)
    decreases |stimuli|
  {
    if stimuli != [] {
      hide Sound, Step, Begun, Early;
      StepSound(c, stimuli[0]);
      if Step(c, stimuli[0]).Ok? {
        StepBegun(c, stimuli[0]);
        if !(stimuli[0].FromService? && Early(c, stimuli[0].event)) {
          HeadersComeFirst(Step(c, stimuli[0]).value, stimuli[1..]);
        }
      }
    }
  }

  lemma NewConnBegun(maxConcurrent: U32, window: WindowSize, streamWindow: WindowSize)
    ensures Begun(NewConn(maxConcurrent, window, streamWindow))
  {
    var c := NewConn(maxConcurrent, window, streamWindow);
    forall id: StreamId
      ensures BegunAt(c, id)
    {
      assert On(c.written, id) == [];
    }
  }
}
