/** Credit is conserved on the client leg: what the peer may still send, what has
    been consumed and not announced, what finished streams left behind and what
    live streams hold are together the connection's window, after every handler. */
module ClientCredit {
  import opened Octets
  import opened Frame
  import opened Flow
  import opened HpackCodec
  import opened Streams
  import opened ClientLeg
  import opened Ring
  import opened Sums
  import opened Scheduler
  import opened ClientRuns

  function Owed(s: Stream): nat {
    s.pendingConnRelease
  }

  /** The connection's account, when `extra` octets have been recorded that no
      stream answers for yet; and credit finished streams left behind is never
      forgotten: a reset is still owed that will hand it back. */
  ghost predicate Balanced(c: Conn, extra: nat) {
    && c.connRecv.Accounts(extra + c.streams.reclaimed + Total(c.streams.live, Owed))
    && (c.streams.reclaimed > 0 ==> c.pendingReset != [])
  }

  /** Every stream's own account, with the possible exception of one. */
  ghost predicate StreamsBalanced(c: Conn, but: Option<StreamId>) {
    && c.streams.initialRecv >= 0
    && forall id {:trigger c.streams.live[id]} :: id in c.streams.live && Some(id) != but ==>
         c.streams.live[id].recvWindow.Accounts(c.streams.live[id].pendingConnRelease)
  }

  ghost predicate Credit(c: Conn) {
    Balanced(c, 0) && StreamsBalanced(c, None)
  }

  // -------------------------------------------------------------------------
  // The steps handlers are made of.
  // -------------------------------------------------------------------------

  lemma ReleaseConnCredit(c: Conn, n: U32, extra: nat, but: Option<StreamId>)
    requires c.connRecv.Accounts(n + extra + c.streams.reclaimed + Total(c.streams.live, Owed))
    requires c.streams.reclaimed > 0 ==> c.pendingReset != []
    ensures ReleaseConn(c, n).Ok?
    ensures var d := ReleaseConn(c, n).value;
            Balanced(d, extra) && d.streams == c.streams && d.connRecv.initial == c.connRecv.initial
            && d.pendingReset == c.pendingReset
  {
    ReleaseAccounts(c.connRecv, n + extra + c.streams.reclaimed + Total(c.streams.live, Owed), n);
  }

  lemma DrainCredit(c: Conn, extra: nat)
    requires c.connRecv.Accounts(extra + c.streams.reclaimed + Total(c.streams.live, Owed))
    ensures DrainReclaimed(c).Ok?
    ensures var d := DrainReclaimed(c).value;
            && Balanced(d, extra) && d.streams == c.streams.(reclaimed := 0)
            && d.connRecv.initial == c.connRecv.initial && d.pendingReset == c.pendingReset
  {
    hide ReleaseConn;
    var (table, n) := c.streams.TakeReclaimed();
    if n != 0 {
      ReleaseConnCredit(c.(streams := table), n, extra, None);
    }
  }

  /** A stream that goes leaves what it held to be reclaimed. */
  lemma DropCredit(c: Conn, id: StreamId, extra: nat)
    requires c.connRecv.Accounts(extra + c.streams.reclaimed + Total(c.streams.live, Owed))
    ensures var d := Drop(c, id);
            && d.connRecv == c.connRecv
            && d.connRecv.Accounts(extra + d.streams.reclaimed + Total(d.streams.live, Owed))
            && d.streams.live == c.streams.live - {id}
  {
    if id in c.streams.live {
      TotalSplit(c.streams.live, Owed, id);
    } else {
      assert c.streams.live - {id} == c.streams.live;
    }
  }

  lemma DropKeepsInitial(c: Conn, id: StreamId)
    ensures Drop(c, id).streams.initialRecv == c.streams.initialRecv
  {
  }

  /** An event that closes a stream takes it out of the table. */
  lemma ClosingDrops(c: Conn, id: StreamId, event: StreamEvent)
    requires c.streams.Apply(id, event).1.Ok? && c.streams.Apply(id, event).1.value.Closed?
    ensures id in c.streams.live
    ensures Drop(c.Put(id, c.streams.live[id].(state := Closed)), id).streams == c.streams.Apply(id, event).0
  {
    hide Transition;
  }

  /** Octets just recorded fit beside those a stream already holds. */
  lemma RoomForBody(c: Conn, id: StreamId, n: nat)
    requires Balanced(c, n) && id in c.streams.live
    ensures c.streams.live[id].pendingConnRelease + n < U32_LIMIT
  {
    TotalSplit(c.streams.live, Owed, id);
  }

  lemma CallsCredit(c: Conn, calls: seq<Call>)
    requires Credit(c)
    ensures Credit(c.(calls := calls))
  {
  }

  lemma PutCredit(c: Conn, id: StreamId, s: Stream, extra: nat)
    requires Balanced(c, extra) && id in c.streams.live && s.pendingConnRelease == c.streams.live[id].pendingConnRelease
    ensures Balanced(c.Put(id, s), extra)
  {
    TotalPut(c.streams.live, Owed, id, s);
  }

  lemma WriteRstCredit(c: Conn, id: StreamId, code: ErrorCode)
    requires Balanced(c, 0) && StreamsBalanced(c, Some(id))
    ensures WriteRst(c, id, code).Ok? && Credit(WriteRst(c, id, code).value)
    ensures WriteRst(c, id, code).value.connRecv.initial == c.connRecv.initial
    ensures WriteRst(c, id, code).value.streams.reclaimed == 0
  {
    hide DrainReclaimed, Total, Drop;
    DropCredit(c, id, 0);
    var gone := Drop(c, id);
    DropKeepsInitial(c, id);
    DrainCredit(gone.(calls := gone.calls + [Cancelled(id)]), 0);
  }

  lemma ApplyEventCredit(c: Conn, id: StreamId, event: StreamEvent)
    requires Credit(c)
    ensures var r := ApplyEvent(c, id, event);
            r.Ok? ==> Credit(r.value) && r.value.connRecv.initial == c.connRecv.initial
  {
    hide DrainReclaimed, Total, Transition, Drop, Receive.Accounts;
    var (table, r) := c.streams.Apply(id, event);
    if r.Ok? {
      var moved := c.Put(id, c.streams.live[id].(state := r.value));
      PutCredit(c, id, c.streams.live[id].(state := r.value), 0);
      if r.value.Closed? {
        DropCredit(moved, id, 0);
        ClosingDrops(c, id, event);
        DrainCredit(c.(streams := table, ready := Without(c.ready, id), calls := c.calls + [Finish(id)]), 0);
      }
    } else {
      DropCredit(c, id, 0);
      DropKeepsInitial(c, id);
    }
  }

  lemma EnqueueCredit(c: Conn, id: StreamId)
    requires Credit(c)
    ensures Credit(Enqueue(c, id)) && Enqueue(c, id).connRecv == c.connRecv
  {
    hide Total, Receive.Accounts;
    if id in c.streams.live {
      PutCredit(c, id, c.streams.live[id].(queued := true), 0);
    }
  }

  lemma QueueHeadCredit(c: Conn, id: StreamId, fields: seq<Header>, endStream: bool)
    ensures var r := QueueHead(c, id, fields, endStream);
            r.Ok? ==> r.value.streams == c.streams && r.value.connRecv == c.connRecv && r.value.pendingReset == c.pendingReset
  {
    hide EncoderState.Block, EncoderState.After;
  }

  /** A stream whose receiving side is not touched. */
  lemma EditCredit(c: Conn, id: StreamId, s: Stream)
    requires Credit(c) && id in c.streams.live
    requires s.pendingConnRelease == c.streams.live[id].pendingConnRelease && s.recvWindow == c.streams.live[id].recvWindow
    ensures Credit(c.Put(id, s))
  {
    hide Total, Receive.Accounts;
    PutCredit(c, id, s, 0);
  }

  lemma SendResponseCredit(c: Conn, id: StreamId, fields: seq<Header>, endStream: bool)
    requires Credit(c)
    ensures var r := SendResponse(c, id, fields, endStream);
            r.Ok? ==> Credit(r.value) && r.value.connRecv.initial == c.connRecv.initial
  {
    hide QueueHead, ApplyEvent, Total, Receive.Accounts;
    var queued := QueueHead(c, id, fields, endStream);
    if queued.Ok? {
      QueueHeadCredit(c, id, fields, endStream);
      var d := queued.value;
      if id in d.streams.live {
        EditCredit(d, id, d.streams.live[id].(responseStarted := true));
        ApplyEventCredit(d.Put(id, d.streams.live[id].(responseStarted := true)), id, SendHeaders(endStream));
      } else {
        ApplyEventCredit(d, id, SendHeaders(endStream));
      }
    }
  }

  lemma SendTrailersCredit(c: Conn, id: StreamId, fields: seq<Header>)
    requires Credit(c)
    ensures var r := SendTrailers(c, id, fields);
            r.Ok? ==> Credit(r.value) && r.value.connRecv.initial == c.connRecv.initial
  {
    hide QueueHead, ApplyEvent, Total, Receive.Accounts, ValidTrailers, Enqueue;
    EnqueueCredit(c, id);
    if id in c.streams.live {
      var ended := c.streams.live[id].(sendEndStream := true);
      var waiting := c.streams.live[id].(pendingTrailers := Some(fields), sendEndStream := true);
      EditCredit(c, id, ended);
      EnqueueCredit(c.Put(id, ended), id);
      EditCredit(c, id, waiting);
      EnqueueCredit(c.Put(id, waiting), id);
    }
    var queued := QueueHead(c, id, fields, true);
    if queued.Ok? {
      QueueHeadCredit(c, id, fields, true);
      ApplyEventCredit(queued.value, id, SendHeaders(true));
    }
  }

  lemma OpenCredit(c: Conn, id: StreamId)
    requires Credit(c) && id !in c.streams.live
    ensures Credit(c.(streams := c.streams.OpenPeer(id).0))
  {
    hide Total;
    TotalPut(c.streams.live, Owed, id, NewStream(c.streams.initialSend, c.streams.initialRecv));
  }

  lemma RejectStreamCredit(c: Conn, id: StreamId, status: seq<Header>)
    requires Credit(c)
    ensures var r := RejectStream(c, id, status);
            r.Ok? ==> Credit(r.value) && r.value.connRecv.initial == c.connRecv.initial
  {
    hide SendResponse, ApplyEvent, WriteRst, Table.OpenPeer, Total, Receive.Accounts;
    if id in c.streams.live {
      SendResponseCredit(c, id, status, true);
    } else {
      var (table, admitted) := c.streams.OpenPeer(id);
      var d := c.(streams := table);
      OpenCredit(c, id);
      WriteRstCredit(d, id, RefusedStream);
      ApplyEventCredit(d, id, RecvHeaders(true));
      if ApplyEvent(d, id, RecvHeaders(true)).Ok? {
        SendResponseCredit(ApplyEvent(d, id, RecvHeaders(true)).value, id, status, true);
      }
    }
  }

  // -------------------------------------------------------------------------
  // The handlers that move credit.
  // -------------------------------------------------------------------------

  /** Acceptance returns exactly what was accepted, at both levels, so long as the
      responder accepts no more than it was given. */
  lemma ReleaseBodyCredit(c: Conn, id: StreamId, n: U32)
    requires Credit(c)
    requires id in c.streams.live ==> n <= c.streams.live[id].pendingConnRelease
    ensures ReleaseBody(c, id, n).Ok? && Credit(ReleaseBody(c, id, n).value)
    ensures ReleaseBody(c, id, n).value.connRecv.initial == c.connRecv.initial
  {
    hide DrainReclaimed, ReleaseConn, Total, Receive.Release;
    if n != 0 && id in c.streams.live {
      var s := c.streams.live[id];
      var (window, update) := s.recvWindow.Release(n);
      ReleaseAccounts(s.recvWindow, s.pendingConnRelease, n);
      var kept := s.(recvWindow := window, pendingConnRelease := s.pendingConnRelease - n);
      TotalPut(c.streams.live, Owed, id, kept);
      var released := c.Put(id, kept);
      var told := if update.None? then released else Queue(released, WindowUpdate(id, update.value)).value;
      assert told.streams == released.streams && told.connRecv == c.connRecv && told.pendingReset == c.pendingReset;
      ReleaseConnCredit(told, n, 0, None);
      DrainCredit(ReleaseConn(told, n).value, 0);
    } else if n != 0 {
      DrainCredit(c, 0);
    }
  }

  lemma BodyArrivesCredit(c: Conn, id: StreamId, data: seq<Octet>, endStream: bool)
    requires id in c.streams.live && |data| < U32_LIMIT
    requires Balanced(c, |data|) && StreamsBalanced(c, None)
    ensures var r := BodyArrives(c, id, data, endStream);
            r.Ok? ==> Credit(r.value) && r.value.connRecv.initial == c.connRecv.initial
  {
    hide ApplyEvent, WriteRst, DrainReclaimed, Total, Receive.Record, Receive.Accounts;
    var s := c.streams.live[id];
    var window := s.recvWindow.Record(|data|);
    var held := s.(dataReceived := s.dataReceived + |data|,
                   pendingConnRelease := SaturatingAdd(s.pendingConnRelease, |data|),
                   recvWindow := if window.Some? then window.value else s.recvWindow);
    TotalPut(c.streams.live, Owed, id, held);
    TotalSplit(c.streams.live, Owed, id);
    RoomForBody(c, id, |data|);
    RecordAccounts(s.recvWindow, s.pendingConnRelease, |data|);
    var c1 := c.Put(id, held);
    assert Balanced(c1, 0) && StreamsBalanced(c1, Some(id));
    WriteRstCredit(c1, id, FlowControlError);
    WriteRstCredit(c1, id, ProtocolError);
    if window.Some? {
      ApplyEventCredit(c1, id, RecvData(endStream));
      var applied := ApplyEvent(c1, id, RecvData(endStream));
      if applied.Ok? {
        DrainCredit(applied.value.(calls := applied.value.calls + [Body(id, data, endStream)]), 0);
        DrainCredit(applied.value, 0);
      }
    }
  }

  lemma OnDataCredit(c: Conn, id: StreamId, data: seq<Octet>, endStream: bool)
    requires Credit(c) && |data| < U32_LIMIT
    ensures var r := OnData(c, id, data, endStream);
            r.Ok? ==> Credit(r.value) && r.value.connRecv.initial == c.connRecv.initial
  {
    hide BodyArrives, WriteRst, ReleaseConn, Total, Receive.Record;
    var recorded := c.connRecv.Record(|data|);
    var before := c.streams.reclaimed + Total(c.streams.live, Owed);
    RecordAccounts(c.connRecv, before, |data|);
    if recorded.Some? {
      var c1 := c.(connRecv := recorded.value);
      RecordKeepsInitial(c.connRecv, |data|);
      assert before + |data| == |data| + c1.streams.reclaimed + Total(c1.streams.live, Owed);
      match c1.streams.Find(id)
      case NeverOpened =>
      case WasClosed =>
        ReleaseConnCredit(c1, |data|, 0, None);
        WriteRstCredit(ReleaseConn(c1, |data|).value, id, StreamClosed);
      case Live(_) => BodyArrivesCredit(c1, id, data, endStream);
    }
  }

  lemma OnRequestCredit(c: Conn, id: StreamId, fields: seq<Header>, endStream: bool, checked: Checked)
    requires Credit(c)
    ensures var r := OnRequest(c, id, fields, endStream, checked);
            r.Ok? ==> Credit(r.value) && r.value.connRecv.initial == c.connRecv.initial
  {
    hide ApplyEvent, WriteRst, Table.OpenPeer, ValidTrailers, Total, Receive.Accounts;
    WriteRstCredit(c, id, StreamClosed);
    WriteRstCredit(c, id, ProtocolError);
    WriteRstCredit(c, id, RefusedStream);
    if id in c.streams.live {
      ApplyEventCredit(c.(calls := c.calls + [RequestTrailers(id, fields)]), id, RecvHeaders(true));
    } else {
      var (table, admitted) := c.streams.OpenPeer(id);
      var d := c.(streams := table);
      OpenCredit(c, id);
      WriteRstCredit(d, id, RefusedStream);
      ApplyEventCredit(d, id, RecvHeaders(endStream));
      var r := ApplyEvent(d, id, RecvHeaders(endStream));
      if r.Ok? {
        OpenedCredit(r.value, id, endStream, checked);
      }
    }
  }

  lemma OpenedCredit(c: Conn, id: StreamId, endStream: bool, checked: Checked)
    requires Credit(c)
    ensures !checked.Wellformed? ==> WriteRst(c, id, checked.code).Ok? && Credit(WriteRst(c, id, checked.code).value)
                                     && WriteRst(c, id, checked.code).value.connRecv.initial == c.connRecv.initial
    ensures checked.Wellformed? ==>
              var d := if id in c.streams.live && checked.contentLength.Some? then
                         c.Put(id, c.streams.live[id].(contentLength := checked.contentLength))
                       else c;
              && Credit(d.(calls := d.calls + [Dispatch(id, endStream)]))
              && WriteRst(d, id, ProtocolError).Ok? && Credit(WriteRst(d, id, ProtocolError).value)
              && WriteRst(d, id, ProtocolError).value.connRecv.initial == c.connRecv.initial
  {
    hide WriteRst, Total, Receive.Accounts;
    if !checked.Wellformed? {
      WriteRstCredit(c, id, checked.code);
    } else {
      if id in c.streams.live {
        EditCredit(c, id, c.streams.live[id].(contentLength := checked.contentLength));
      }
      var d := if id in c.streams.live && checked.contentLength.Some? then
                 c.Put(id, c.streams.live[id].(contentLength := checked.contentLength))
               else c;
      WriteRstCredit(d, id, ProtocolError);
    }
  }

  lemma OnRstCredit(c: Conn, id: StreamId)
    requires Credit(c)
    ensures OnRst(c, id).Ok? ==> Credit(OnRst(c, id).value) && OnRst(c, id).value.connRecv.initial == c.connRecv.initial
  {
    hide DrainReclaimed, Total;
    DropCredit(c, id, 0);
    var gone := Drop(c, id);
    DrainCredit(gone.(calls := gone.calls + [Cancelled(id)]), 0);
  }

  lemma OnWindowUpdateCredit(c: Conn, id: StreamId, increment: U32)
    requires Credit(c)
    ensures var r := OnWindowUpdate(c, id, increment);
            r.Ok? ==> Credit(r.value) && r.value.connRecv.initial == c.connRecv.initial
  {
    hide WriteRst, Enqueue, Total, Receive.Accounts;
    WriteRstCredit(c, id, ProtocolError);
    WriteRstCredit(c, id, FlowControlError);
    if id in c.streams.live {
      var credited := c.streams.live[id].sendWindow.Increase(increment);
      if credited.Some? {
        var s := c.streams.live[id].(sendWindow := credited.value);
        EditCredit(c, id, s);
        EnqueueCredit(c.Put(id, s), id);
      }
    }
  }

  /** The responder's half of the contract: it accepts no more than it was given. */
  predicate Honest(c: Conn, s: Stimulus) {
    s.FromService? && s.event.BodyAccepted? && s.event.id in c.streams.live ==>
      s.event.n <= c.streams.live[s.event.id].pendingConnRelease
  }

  lemma OnServiceCredit(c: Conn, e: ServiceEvent)
    requires Credit(c) && Honest(c, FromService(e))
    ensures var r := OnService(c, e); r.Ok? ==> Credit(r.value) && r.value.connRecv.initial == c.connRecv.initial
  {
    hide SendResponse, SendTrailers, RejectStream, ReleaseBody, WriteRst, Enqueue, Total, Receive.Accounts;
    var id := e.id;
    match e
    case Head(_, fields, endStream) => SendResponseCredit(c, id, fields, endStream);
    case BodyData(_, data, endStream) =>
      if id in c.streams.live {
        var s := c.streams.live[id];
        var held := s.(sendQueue := if data == [] then s.sendQueue else s.sendQueue + [data],
                       sendEndStream := s.sendEndStream || endStream);
        EditCredit(c, id, held);
        EnqueueCredit(c.Put(id, held), id);
      }
    case Trailers(_, fields) => SendTrailersCredit(c, id, fields);
    case BodyAccepted(_, n) => ReleaseBodyCredit(c, id, n);
    case Gone(_) => GiveUpCredit(c, id, StatusOnly(5, 0, 2));
    case Shed(_) => GiveUpCredit(c, id, StatusOnly(5, 0, 3));
    case ResetStream(_, code) => WriteRstCredit(c, id, code);
  }

  lemma GiveUpCredit(c: Conn, id: StreamId, status: seq<Header>)
    requires Credit(c)
    ensures var r := GiveUp(c, id, status); r.Ok? ==> Credit(r.value) && r.value.connRecv.initial == c.connRecv.initial
  {
    hide WriteRst, RejectStream;
    WriteRstCredit(c, id, InternalError);
    RejectStreamCredit(c, id, status);
  }

  // -------------------------------------------------------------------------
  // The writer.
  // -------------------------------------------------------------------------

  lemma VisitCredit(c: Conn, id: StreamId)
    requires Credit(c)
    ensures var r := VisitReady(c, id);
            r.Ok? ==> Credit(r.value.conn) && r.value.conn.connRecv.initial == c.connRecv.initial
  {
    hide ApplyEvent, SendTrailers, Total, Receive.Accounts, TakeFromQueue, QueuedOctets, Credit;
    if id in c.streams.live {
      var s := c.streams.live[id];
      var t := Take(s, Budget(c, s));
      EditCredit(c, id, s.(queued := false));
      EditCredit(c, id, t.rest);
      TakeFits(s.sendQueue, Budget(c, s));
      SendBodyCredit(c, id, t);
      var sent := SendBody(c, id, t);
      if sent.Ok? {
        var c2 := if t.chunk == [] then sent.value else sent.value.(calls := sent.value.calls + [Released(id, |t.chunk|)]);
        CallsCredit(sent.value, c2.calls);
        if t.trailers.Some? {
          SendTrailersCredit(c2, id, t.trailers.value);
        }
      }
    }
  }

  lemma SendBodyCredit(c: Conn, id: StreamId, t: Taken)
    requires Credit(c) && id in c.streams.live && |t.chunk| < U32_LIMIT
    requires t.rest.recvWindow == c.streams.live[id].recvWindow
    requires t.rest.pendingConnRelease == c.streams.live[id].pendingConnRelease
    ensures var r := SendBody(c, id, t); r.Ok? ==> Credit(r.value) && r.value.connRecv.initial == c.connRecv.initial
  {
    hide ApplyEvent, Total, Receive.Accounts;
    var own, all := t.rest.sendWindow.Consume(|t.chunk|), c.connSend.Consume(|t.chunk|);
    if t.chunk == [] || (own.Some? && all.Some?) {
      var spent := if t.chunk == [] then t.rest else t.rest.(sendWindow := own.value);
      EditCredit(c, id, spent);
      var c2 := if t.chunk == [] then c.Put(id, spent) else c.Put(id, spent).(connSend := all.value);
      var queued := Queue(c2, Data(id, t.chunk, t.endStream));
      if queued.Ok? {
        ApplyEventCredit(queued.value, id, SendData(t.endStream));
      }
    }
  }

  lemma {:induction false} LapCredit(at: LapEnd, lap: seq<StreamId>)
    requires Credit(at.conn)
    ensures var r := RunLap(at, lap);
            r.Ok? ==> Credit(r.value.conn) && r.value.conn.connRecv.initial == at.conn.connRecv.initial
    decreases |lap|
  {
    if lap != [] {
      hide VisitReady, Credit;
      VisitCredit(at.conn, lap[0]);
      var v := VisitReady(at.conn, lap[0]);
      if v.Ok? {
        LapCredit(LapNext(at, lap[0], v.value), lap[1..]);
      }
    }
  }

  lemma OneLapCredit(c: Conn)
    requires Credit(c)
    ensures var r := OneLap(c);
            r.Ok? ==> Credit(r.value.0) && r.value.0.connRecv.initial == c.connRecv.initial
  {
    hide RunLap, Total, Receive.Accounts;
    var start := LapEnd(c.(ready := []), [], [], false);
    LapCredit(start, c.ready);
    var r := RunLap(start, c.ready);
    if r.Ok? {
      TotalSame(r.value.conn.streams.live, Rebuild(r.value).streams.live, Owed);
    }
  }

  lemma {:induction false} FlushCredit(c: Conn)
    requires Credit(c)
    ensures var r := FlushResets(c);
            r.Ok? ==> Credit(r.value) && r.value.connRecv.initial == c.connRecv.initial
                      && r.value.pendingReset == [] && r.value.streams.reclaimed == 0
    decreases |c.pendingReset|
  {
    if c.pendingReset != [] {
      hide WriteRst, Total, Receive.Accounts;
      var n := |c.pendingReset| - 1;
      var last := c.pendingReset[n];
      var b := c.(pendingReset := c.pendingReset[..n]);
      FlushKeeps(b, last.0, last.1);
      ResetWhileOwing(b, last.0, last.1);
      FlushCredit(WriteRst(b, last.0, last.1).value);
    }
  }

  /** A reset that was owed also hands back what its stream left behind. */
  lemma ResetWhileOwing(c: Conn, id: StreamId, code: ErrorCode)
    requires c.connRecv.Accounts(c.streams.reclaimed + Total(c.streams.live, Owed)) && StreamsBalanced(c, None)
    ensures WriteRst(c, id, code).Ok? && Credit(WriteRst(c, id, code).value)
    ensures WriteRst(c, id, code).value.connRecv.initial == c.connRecv.initial
  {
    hide DrainReclaimed, Total, Drop;
    DropCredit(c, id, 0);
    var gone := Drop(c, id);
    DropKeepsInitial(c, id);
    DrainCredit(gone.(calls := gone.calls + [Cancelled(id)]), 0);
  }

  lemma {:induction false} PumpCredit(c: Conn)
    requires Sound(c) && Credit(c)
    ensures var r := Pump(c);
            r.Ok? ==> Credit(r.value) && r.value.connRecv.initial == c.connRecv.initial
                      && r.value.pendingReset == [] && r.value.streams.reclaimed == 0
    decreases Total(c.streams.live, Load)
  {
    hide OneLap, FlushResets, Sound, Credit, Total, Load;
    OneLapFacts(c);
    if c.ready == [] || c.outLen >= MAX_WRITE_QUEUE {
      FlushCredit(c);
    } else if OneLap(c).Ok? {
      OneLapCredit(c);
      var (d, wrote) := OneLap(c).value;
      if wrote {
        PumpCredit(d);
      } else {
        FlushCredit(d);
      }
    }
  }

  /** Moved send windows are no matter of receiving. */
  lemma MovedOwed(t: Table, delta: I32)
    requires t.ApplyInitialWindowDelta(delta).Some?
    ensures var u := t.ApplyInitialWindowDelta(delta).value;
            && u.reclaimed == t.reclaimed && u.initialRecv == t.initialRecv && u.live.Keys == t.live.Keys
            && (forall id :: id in t.live ==> Owed(u.live[id]) == Owed(t.live[id]) && u.live[id].recvWindow == t.live[id].recvWindow)
  {
  }

  lemma SettingsCredit(c: Conn, params: seq<Param>)
    requires Credit(c) && DEFAULT_MAX_FRAME_SIZE <= c.peer.maxFrame
    ensures var r := OnSettings(c, params);
            r.Ok? ==> Credit(r.value) && r.value.connRecv.initial == c.connRecv.initial
  {
    hide Total, Receive.Accounts, OnSettings, Table.ApplyInitialWindowDelta;
    var r := OnSettings(c, params);
    if r.Ok? {
      SettingsFacts(c, params);
      var delta := r.value.peer.initialWindow - c.peer.initialWindow;
      if delta != 0 {
        MovedOwed(c.streams, delta);
      }
      TotalSame(c.streams.live, r.value.streams.live, Owed);
    }
  }

  // -------------------------------------------------------------------------
  // Whole runs.
  // -------------------------------------------------------------------------

  lemma StepCredit(c: Conn, s: Stimulus)
    requires Sound(c) && Fits(s) && Credit(c) && Honest(c, s)
    ensures var r := Step(c, s); r.Ok? ==> Credit(r.value) && r.value.connRecv.initial == c.connRecv.initial
  {
    hide OnService, OnRequest, RejectStream, OnData, OnRst, OnWindowUpdate, OnSettings, Pump, Sound, Total, Receive.Accounts;
    match s
    case FromService(event) => OnServiceCredit(c, event);
    case RequestArrives(id, fields, endStream, checked) => OnRequestCredit(c, id, fields, endStream, checked);
    case OversizedArrives(id) => RejectStreamCredit(c, id, StatusOnly(4, 3, 1));
    case DataArrives(id, data, endStream) => OnDataCredit(c, id, data, endStream);
    case ResetArrives(id) => OnRstCredit(c, id);
    case CreditArrives(id, increment) => OnWindowUpdateCredit(c, id, increment);
    case SettingsArrive(params) =>
      SoundFrame(c);
      SettingsCredit(c, params);
    case WriterRuns => PumpCredit(c);
    case SocketTakes(_) =>
    case LimitMoves(_) =>
    case DrainCommits =>
  }

  ghost predicate AllHonest(c: Conn, stimuli: seq<Stimulus>)
    requires Sound(c) && forall s :: s in stimuli ==> Fits(s)
    decreases |stimuli|
  {
    stimuli == [] ||
    (Honest(c, stimuli[0]) &&
     (StepSound(c, stimuli[0]);
      Step(c, stimuli[0]).Ok? ==> AllHonest(Step(c, stimuli[0]).value, stimuli[1..])))
  }

  /** Credit is conserved through accepts, resets, refusals, illegal transitions
      and completions, in any order; and once the writer has run with no stream
      left alive, more than half the window is back with the peer. */
  lemma {:induction false} CreditConserved(c: Conn, stimuli: seq<Stimulus>)
    requires Sound(c) && (forall s :: s in stimuli ==> Fits(s)) && Credit(c) && AllHonest(c, stimuli)
    ensures var r := RunAll(c, stimuli);
            r.Ok? ==>
              var d := r.value;
              && Credit(d) && d.connRecv.initial == c.connRecv.initial
              && d.connRecv.window.available + d.connRecv.unreleased + d.streams.reclaimed + Total(d.streams.live, Owed)
                 == c.connRecv.initial
              && (stimuli != [] && stimuli[|stimuli| - 1].WriterRuns? && d.streams.live == map[] && c.connRecv.initial > 0 ==>
                    d.connRecv.window.available * 2 > c.connRecv.initial)
    decreases |stimuli|
  {
    hide Sound, Step, Total;
    if stimuli != [] {
      StepSound(c, stimuli[0]);
      if Step(c, stimuli[0]).Ok? {
        StepCredit(c, stimuli[0]);
        CreditConserved(Step(c, stimuli[0]).value, stimuli[1..]);
        if stimuli[0] == WriterRuns && |stimuli| == 1 {
          WriteReturns(c);
        }
      }
    }
  }

  lemma WriteReturns(c: Conn)
    requires Sound(c) && Credit(c)
    ensures var r := Step(c, WriterRuns);
            r.Ok? && r.value.streams.live == map[] && c.connRecv.initial > 0 ==>
              r.value.connRecv.window.available * 2 > c.connRecv.initial
  {
    hide Pump, Sound;
    PumpCredit(c);
    var r := Step(c, WriterRuns);
    if r.Ok? && r.value.streams.live == map[] && c.connRecv.initial > 0 {
      DrainedIsOverHalf(r.value.connRecv);
    }
  }

  lemma NewConnCredit(maxConcurrent: U32, window: WindowSize, streamWindow: WindowSize)
    ensures Credit(NewConn(maxConcurrent, window, streamWindow))
  {
  }
}
