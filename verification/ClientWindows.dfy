/** Send windows are exact (RFC 9113 section 6.9.2): a live stream's credit is the
    peer's present INITIAL_WINDOW_SIZE and every increment it was given, less the
    octets it has sent, whether it opened before or after a change; and neither
    level is ever overspent. */
module ClientWindows {
  import opened Octets
  import opened Frame
  import opened Flow
  import opened HpackCodec
  import opened Streams
  import opened ClientLeg
  import opened Ring
  import opened Sums
  import opened Scheduler
  import opened ClientRuns

  /** Increments taken so far, by stream, with the connection's own under 0. */
  type Increments = map<StreamId, nat>

  function Given(l: Increments, id: StreamId): nat {
    if id in l then l[id] else 0
  }

  /** An increment counts when it is addressed to the connection, or to a live
      stream whose window has room for it. */
  function Noted(l: Increments, c: Conn, s: Stimulus): Increments {
    if s.CreditArrives? &&
       (s.id == CONNECTION || (s.id in c.streams.live && c.streams.live[s.id].sendWindow.Increase(s.increment).Some?))
    then l[s.id := Given(l, s.id) + s.increment]
    else l
  }

  /** Octets of body sent on one stream, and on all. */
  function SentOn(log: seq<Frame>, id: StreamId): nat
    decreases |log|
  {
    if log == [] then 0
    else
      var f := log[|log| - 1];
      SentOn(log[..|log| - 1], id) + (if f.Data? && f.stream == id then |f.data| else 0)
  }

  function Sent(log: seq<Frame>): nat
    decreases |log|
  {
    if log == [] then 0
    else
      var f := log[|log| - 1];
      Sent(log[..|log| - 1]) + (if f.Data? then |f.data| else 0)
  }

  lemma SentSnoc(log: seq<Frame>, f: Frame)
    requires f.Data?
    ensures Sent(log + [f]) == Sent(log) + |f.data|
    ensures forall id :: SentOn(log + [f], id) == SentOn(log, id) + (if f.stream == id then |f.data| else 0)
  {
    assert (log + [f])[..|log|] == log;
  }

  predicate ExactAt(c: Conn, l: Increments, id: StreamId) {
    var sent := SentOn(Carrying(c.written), id);
    match c.Entry(id)
    case None => id > c.streams.highestPeer && id != CONNECTION ==> sent == 0 && Given(l, id) == 0
    case Some(s) =>
      && 0 < id <= c.streams.highestPeer
      && s.sendWindow.available == c.peer.initialWindow + Given(l, id) - sent
      && sent <= Given(l, id) + I32_MAX
  }

  ghost predicate Exact(c: Conn, l: Increments) {
    && (forall id: StreamId :: ExactAt(c, l, id))
    && c.streams.initialSend == c.peer.initialWindow
    && 0 <= c.connSend.available == DEFAULT_INITIAL_WINDOW_SIZE + Given(l, CONNECTION) - Sent(Carrying(c.written))
  }

  // -------------------------------------------------------------------------
  // Handlers leave the window of the stream they are about alone.
  // -------------------------------------------------------------------------

  /** The stream is gone, or has the window it had. */
  predicate Keeps(c: Conn, d: Conn, id: StreamId) {
    && d.streams.highestPeer >= c.streams.highestPeer
    && match d.Entry(id)
       case None => true
       case Some(t) => c.Entry(id).Some? && t.sendWindow == c.Entry(id).value.sendWindow
  }

  /** As above, or it has just opened with the window new streams get. */
  predicate KeepsOrOpens(c: Conn, d: Conn, id: StreamId) {
    || Keeps(c, d, id)
    || (&& c.streams.highestPeer < id <= d.streams.highestPeer
        && c.Entry(id) == None
        && d.Entry(id).Some? && d.Entry(id).value.sendWindow == Window(c.streams.initialSend))
  }

  lemma DrainKeeps(c: Conn, id: StreamId)
    ensures DrainReclaimed(c).Ok? && Keeps(c, DrainReclaimed(c).value, id)
  {
    DrainTouches(c, id);
  }

  lemma WriteRstKeeps(c: Conn, id: StreamId, code: ErrorCode)
    ensures WriteRst(c, id, code).Ok? && Keeps(c, WriteRst(c, id, code).value, id)
  {
    WriteRstTouches(c, id, code);
  }

  lemma ApplyEventKeeps(c: Conn, id: StreamId, event: StreamEvent)
    ensures ApplyEvent(c, id, event).Ok? ==> Keeps(c, ApplyEvent(c, id, event).value, id)
  {
    hide ApplyEvent, Transition;
    ApplyEventTouches(c, id, event);
  }

  lemma SendResponseKeeps(c: Conn, id: StreamId, fields: seq<Header>, endStream: bool)
    ensures var r := SendResponse(c, id, fields, endStream); r.Ok? ==> Keeps(c, r.value, id)
  {
    hide QueueHead, ApplyEvent;
    var queued := QueueHead(c, id, fields, endStream);
    if queued.Ok? {
      QueueHeadTouches(c, id, fields, endStream);
      var d := queued.value;
      if id in d.streams.live {
        ApplyEventKeeps(d.Put(id, d.streams.live[id].(responseStarted := true)), id, SendHeaders(endStream));
      } else {
        ApplyEventKeeps(d, id, SendHeaders(endStream));
      }
    }
  }

  lemma EnqueueKeeps(c: Conn, id: StreamId)
    ensures Keeps(c, Enqueue(c, id), id)
  {
  }

  lemma SendTrailersKeeps(c: Conn, id: StreamId, fields: seq<Header>)
    ensures var r := SendTrailers(c, id, fields); r.Ok? ==> Keeps(c, r.value, id)
  {
    hide QueueHead, ApplyEvent, ValidTrailers, Enqueue;
    EnqueueKeeps(c, id);
    if id in c.streams.live {
      var s := c.streams.live[id];
      EnqueueKeeps(c.Put(id, s.(sendEndStream := true)), id);
      EnqueueKeeps(c.Put(id, s.(pendingTrailers := Some(fields), sendEndStream := true)), id);
    }
    var queued := QueueHead(c, id, fields, true);
    if queued.Ok? {
      QueueHeadTouches(c, id, fields, true);
      ApplyEventKeeps(queued.value, id, SendHeaders(true));
    }
  }

  lemma RejectStreamKeeps(c: Conn, id: StreamId, status: seq<Header>)
    ensures var r := RejectStream(c, id, status); r.Ok? ==> KeepsOrOpens(c, r.value, id)
  {
    hide SendResponse, ApplyEvent, WriteRst;
    if id in c.streams.live {
      SendResponseKeeps(c, id, status, true);
    } else {
      var (table, admitted) := c.streams.OpenPeer(id);
      var d := c.(streams := table);
      WriteRstKeeps(d, id, RefusedStream);
      ApplyEventKeeps(d, id, RecvHeaders(true));
      if ApplyEvent(d, id, RecvHeaders(true)).Ok? {
        SendResponseKeeps(ApplyEvent(d, id, RecvHeaders(true)).value, id, status, true);
      }
    }
  }

  lemma ReleaseBodyKeeps(c: Conn, id: StreamId, n: U32)
    ensures ReleaseBody(c, id, n).Ok? ==> Keeps(c, ReleaseBody(c, id, n).value, id)
  {
    hide DrainReclaimed, ReleaseConn, Receive.Release;
    if n != 0 && id in c.streams.live {
      var s := c.streams.live[id];
      var (window, update) := s.recvWindow.Release(n);
      var owed := if n > s.pendingConnRelease then 0 else s.pendingConnRelease - n;
      var released := c.Put(id, s.(recvWindow := window, pendingConnRelease := owed));
      var told := if update.None? then released else Queue(released, WindowUpdate(id, update.value)).value;
      assert told.streams == released.streams;
      ReleaseConnTouches(told, n, id);
      DrainKeeps(ReleaseConn(told, n).value, id);
    } else {
      DrainKeeps(c, id);
    }
  }

  lemma GiveUpKeeps(c: Conn, id: StreamId, status: seq<Header>)
    ensures GiveUp(c, id, status).Ok? ==> KeepsOrOpens(c, GiveUp(c, id, status).value, id)
  {
    hide WriteRst, RejectStream;
    WriteRstKeeps(c, id, InternalError);
    RejectStreamKeeps(c, id, status);
  }

  lemma OnServiceKeeps(c: Conn, e: ServiceEvent)
    ensures OnService(c, e).Ok? ==> KeepsOrOpens(c, OnService(c, e).value, e.id)
  {
    hide SendResponse, SendTrailers, RejectStream, ReleaseBody, WriteRst;
    var id := e.id;
    match e
    case Head(_, fields, endStream) => SendResponseKeeps(c, id, fields, endStream);
    case BodyData(_, _, _) =>
    case Trailers(_, fields) => SendTrailersKeeps(c, id, fields);
    case BodyAccepted(_, n) => ReleaseBodyKeeps(c, id, n);
    case Gone(_) => GiveUpKeeps(c, id, StatusOnly(5, 0, 2));
    case Shed(_) => GiveUpKeeps(c, id, StatusOnly(5, 0, 3));
    case ResetStream(_, code) => WriteRstKeeps(c, id, code);
  }

  lemma OnRequestKeeps(c: Conn, id: StreamId, fields: seq<Header>, endStream: bool, checked: Checked)
    ensures var r := OnRequest(c, id, fields, endStream, checked); r.Ok? ==> KeepsOrOpens(c, r.value, id)
  {
    hide ApplyEvent, WriteRst, ValidTrailers;
    WriteRstKeeps(c, id, StreamClosed);
    WriteRstKeeps(c, id, ProtocolError);
    WriteRstKeeps(c, id, RefusedStream);
    if id in c.streams.live {
      ApplyEventKeeps(c.(calls := c.calls + [RequestTrailers(id, fields)]), id, RecvHeaders(true));
    } else {
      var (table, admitted) := c.streams.OpenPeer(id);
      var d := c.(streams := table);
      WriteRstKeeps(d, id, RefusedStream);
      ApplyEventKeeps(d, id, RecvHeaders(endStream));
      var r := ApplyEvent(d, id, RecvHeaders(endStream));
      if r.Ok? {
        var c2 := if checked.Wellformed? && id in r.value.streams.live && checked.contentLength.Some? then
                    r.value.Put(id, r.value.streams.live[id].(contentLength := checked.contentLength))
                  else r.value;
        WriteRstKeeps(c2, id, if checked.Wellformed? then ProtocolError else checked.code);
      }
    }
  }

  lemma OnDataKeeps(c: Conn, id: StreamId, data: seq<Octet>, endStream: bool)
    requires |data| < U32_LIMIT
    ensures var r := OnData(c, id, data, endStream); r.Ok? ==> Keeps(c, r.value, id)
  {
    hide BodyArrives, WriteRst, ReleaseConn;
    var recorded := c.connRecv.Record(|data|);
    if recorded.Some? {
      var c1 := c.(connRecv := recorded.value);
      match c1.streams.Find(id)
      case NeverOpened =>
      case WasClosed =>
        ReleaseConnTouches(c1, |data|, id);
        WriteRstKeeps(ReleaseConn(c1, |data|).value, id, StreamClosed);
      case Live(_) => BodyArrivesKeeps(c1, id, data, endStream);
    }
  }

  lemma BodyArrivesKeeps(c: Conn, id: StreamId, data: seq<Octet>, endStream: bool)
    requires id in c.streams.live && |data| < U32_LIMIT
    ensures var r := BodyArrives(c, id, data, endStream); r.Ok? ==> Keeps(c, r.value, id)
  {
    hide ApplyEvent, WriteRst, DrainReclaimed, Receive.Record;
    var s := c.streams.live[id];
    var window := s.recvWindow.Record(|data|);
    var held := s.(dataReceived := s.dataReceived + |data|,
                   pendingConnRelease := SaturatingAdd(s.pendingConnRelease, |data|),
                   recvWindow := if window.Some? then window.value else s.recvWindow);
    var c1 := c.Put(id, held);
    WriteRstKeeps(c1, id, FlowControlError);
    WriteRstKeeps(c1, id, ProtocolError);
    ApplyEventKeeps(c1, id, RecvData(endStream));
    var applied := ApplyEvent(c1, id, RecvData(endStream));
    if applied.Ok? {
      DrainKeeps(applied.value.(calls := applied.value.calls + [Body(id, data, endStream)]), id);
      DrainKeeps(applied.value, id);
    }
  }

  /** No stimulus but credit for that very stream moves a stream's window. */
  lemma StepKeeps(c: Conn, s: Stimulus)
    requires Sound(c) && Fits(s) && !Wide(s) && !s.CreditArrives?
    ensures Step(c, s).Ok? ==> KeepsOrOpens(c, Step(c, s).value, About(s))
  {
    hide OnService, OnRequest, RejectStream, OnData;
    match s
    case FromService(event) => OnServiceKeeps(c, event);
    case RequestArrives(id, fields, endStream, checked) => OnRequestKeeps(c, id, fields, endStream, checked);
    case OversizedArrives(id) => RejectStreamKeeps(c, id, StatusOnly(4, 3, 1));
    case DataArrives(id, data, endStream) => OnDataKeeps(c, id, data, endStream);
    case ResetArrives(id) =>
      if OnRst(c, id).Ok? && id in c.streams.live {
        var gone := Drop(c, id);
        DrainKeeps(gone.(calls := gone.calls + [Cancelled(id)]), id);
      }
    case SocketTakes(_) =>
    case LimitMoves(_) =>
    case DrainCommits =>
  }

  /** A change about one stream that keeps its window, or opens it, keeps every
      window exact. */
  lemma KeepsExact(c: Conn, d: Conn, id: StreamId, l: Increments)
    requires Exact(c, l) && Touches(c, d, id) && KeepsOrOpens(c, d, id) && (id == CONNECTION ==> d.Entry(id) == None)
    ensures Exact(d, l)
  {
    hide Carrying, SentOn, Sent, On;
    forall j: StreamId
      ensures ExactAt(d, l, j)
    {
      assert ExactAt(c, l, j);
    }
  }

  /** Credit for one stream. */
  lemma CreditExact(c: Conn, id: StreamId, increment: U32, l: Increments)
    requires Sound(c) && Exact(c, l) && (id != CONNECTION || increment == 0)
    ensures var r := OnWindowUpdate(c, id, increment);
            r.Ok? ==> Exact(r.value, Noted(l, c, CreditArrives(id, increment)))
  {
    hide WriteRst, Enqueue, Carrying, SentOn, Sent, On, Proper;
    var r := OnWindowUpdate(c, id, increment);
    if r.Ok? {
      assert SoundAt(c, id) && ExactAt(c, l, id);
      OnWindowUpdateHandled(c, id, increment);
      WriteRstKeeps(c, id, ProtocolError);
      WriteRstKeeps(c, id, FlowControlError);
      if id in c.streams.live && increment != 0 && c.streams.live[id].sendWindow.Increase(increment).Some? {
        EnqueueKeeps(c.Put(id, c.streams.live[id].(sendWindow := c.streams.live[id].sendWindow.Increase(increment).value)), id);
      }
      var l1 := Noted(l, c, CreditArrives(id, increment));
      forall j: StreamId
        ensures ExactAt(r.value, l1, j)
      {
        assert ExactAt(c, l, j);
      }
    }
  }

  /** Credit for the connection. */
  lemma ConnectionCreditExact(c: Conn, increment: U32, l: Increments)
    requires Sound(c) && Exact(c, l) && increment != 0
    ensures var s := CreditArrives(CONNECTION, increment);
            Step(c, s).Ok? ==> Exact(Step(c, s).value, Noted(l, c, s))
  {
    hide Carrying, SentOn, Sent, On;
    var s := CreditArrives(CONNECTION, increment);
    var r := Step(c, s);
    if r.Ok? {
      forall j: StreamId
        ensures ExactAt(r.value, Noted(l, c, s), j)
      {
        assert ExactAt(c, l, j);
      }
    }
  }

  /** A new INITIAL_WINDOW_SIZE moves every window by the difference, exactly: the
      bottom of the 32-bit range is never reached, and a window may go below zero. */
  lemma SettingsExact(c: Conn, params: seq<Param>, l: Increments)
    requires Exact(c, l) && DEFAULT_MAX_FRAME_SIZE <= c.peer.maxFrame
    ensures var r := OnSettings(c, params); r.Ok? ==> Exact(r.value, l)
  {
    hide OnSettings, Carrying, SentOn, Sent, On;
    var r := OnSettings(c, params);
    if r.Ok? {
      SettingsFacts(c, params);
      var d := r.value;
      var delta := d.peer.initialWindow - c.peer.initialWindow;
      forall j: StreamId
        ensures ExactAt(d, l, j)
      {
        assert ExactAt(c, l, j);
        if delta != 0 && j in c.streams.live {
          assert c.streams.live[j].sendWindow.available + delta >= I32_MIN;
        }
      }
    }
  }

  // -------------------------------------------------------------------------
  // The writer.
  // -------------------------------------------------------------------------

  lemma VisitExact(c: Conn, id: StreamId, v: Visited, l: Increments)
    requires Exact(c, l) && id in c.streams.live && VisitEffect(c, id, v)
    ensures Exact(v.conn, l)
  {
    hide Carrying, SentOn, Sent, On, Proper, Unqueued, QueuedOctets, Take, Load;
    var t := Take(c.streams.live[id], Budget(c, c.streams.live[id]));
    var log, log1 := Carrying(c.written), Carrying(v.conn.written);
    if v.visit.Wrote? {
      if t.chunk == [] {
        assert log1 == log;
      } else {
        SentSnoc(log, Data(id, t.chunk, t.endStream));
      }
    } else {
      assert log1 == log;
    }
    assert ExactAt(c, l, id);
    forall j: StreamId
      ensures ExactAt(v.conn, l, j)
    {
      assert ExactAt(c, l, j);
      assert j != id ==> v.conn.Entry(j) == c.Entry(j);
    }
  }

  lemma {:induction false} LapExact(at: LapEnd, lap: seq<StreamId>, l: Increments)
    requires Lapping(at, lap) && Exact(at.conn, l)
    ensures RunLap(at, lap).Ok? ==> Exact(RunLap(at, lap).value.conn, l)
    decreases |lap|
  {
    hide VisitReady, VisitEffect, Exact, Proper;
    if lap != [] {
      var id := lap[0];
      NextInLap(at, lap);
      VisitFacts(at.conn, id);
      var v := VisitReady(at.conn, id);
      if v.Ok? {
        VisitKeepsLap(at, lap, v.value);
        VisitExact(at.conn, id, v.value, l);
        LapExact(LapNext(at, id, v.value), lap[1..], l);
      }
    }
  }

  lemma OneLapExact(c: Conn, l: Increments)
    requires Sound(c) && Exact(c, l)
    ensures OneLap(c).Ok? ==> Exact(OneLap(c).value.0, l)
  {
    hide RunLap, Lapping, Sound, Carrying, SentOn, Sent, On;
    var start := LapEnd(c.(ready := []), [], [], false);
    LapStarts(c);
    assert Exact(start.conn, l) by {
      forall j: StreamId
        ensures ExactAt(start.conn, l, j)
      {
        assert ExactAt(c, l, j);
      }
    }
    LapExact(start, c.ready, l);
    var r := RunLap(start, c.ready);
    if r.Ok? {
      forall j: StreamId
        ensures ExactAt(Rebuild(r.value), l, j)
      {
        assert ExactAt(r.value.conn, l, j);
      }
    }
  }

  lemma {:induction false} FlushExact(c: Conn, l: Increments)
    requires Exact(c, l)
    ensures FlushResets(c).Ok? ==> Exact(FlushResets(c).value, l)
    decreases |c.pendingReset|
  {
    if c.pendingReset != [] {
      hide WriteRst, Touches, Carrying, SentOn, Sent, On;
      var last := c.pendingReset[|c.pendingReset| - 1];
      var b := c.(pendingReset := c.pendingReset[..|c.pendingReset| - 1]);
      assert Exact(b, l) by {
        forall j: StreamId
          ensures ExactAt(b, l, j)
        {
          assert ExactAt(c, l, j);
        }
      }
      FlushKeeps(b, last.0, last.1);
      WriteRstTouches(b, last.0, last.1);
      WriteRstKeeps(b, last.0, last.1);
      KeepsExact(b, WriteRst(b, last.0, last.1).value, last.0, l);
      FlushExact(WriteRst(b, last.0, last.1).value, l);
    }
  }

  lemma {:induction false} PumpExact(c: Conn, l: Increments)
    requires Sound(c) && Exact(c, l)
    ensures Pump(c).Ok? ==> Exact(Pump(c).value, l)
    decreases Total(c.streams.live, Load)
  {
    hide OneLap, FlushResets, Sound, Exact, Total, Load;
    OneLapFacts(c);
    if c.ready == [] || c.outLen >= MAX_WRITE_QUEUE {
      FlushExact(c, l);
    } else if OneLap(c).Ok? {
      OneLapExact(c, l);
      var (d, wrote) := OneLap(c).value;
      if wrote {
        PumpExact(d, l);
      } else {
        FlushExact(d, l);
      }
    }
  }

  // -------------------------------------------------------------------------
  // Whole runs.
  // -------------------------------------------------------------------------

  /** Stream 0 is the connection and is never a stream. */
  lemma NeverZero(c: Conn, d: Conn, id: StreamId, l: Increments)
    requires Exact(c, l) && KeepsOrOpens(c, d, id)
    ensures id == CONNECTION ==> d.Entry(id) == None
  {
    assert ExactAt(c, l, id);
  }

  lemma StepExact(c: Conn, s: Stimulus, l: Increments)
    requires Sound(c) && Fits(s) && Exact(c, l)
    ensures Step(c, s).Ok? ==> Exact(Step(c, s).value, Noted(l, c, s))
  {
    hide Pump, OnSettings, OnWindowUpdate, Sound, Exact, Touches, SoundAt, KeepsOrOpens;
    if s.WriterRuns? {
      PumpExact(c, l);
    } else if s.SettingsArrive? {
      SoundFrame(c);
      SettingsExact(c, s.params, l);
    } else if Wide(s) {
      ConnectionCreditExact(c, s.increment, l);
    } else if s.CreditArrives? {
      CreditExact(c, s.id, s.increment, l);
    } else if Step(c, s).Ok? {
      StepHandled(c, s);
      StepKeeps(c, s);
      NeverZero(c, Step(c, s).value, About(s), l);
      KeepsExact(c, Step(c, s).value, About(s), l);
    }
  }

  /** Increments over a run. */
  function AllNoted(l: Increments, c: Conn, stimuli: seq<Stimulus>): Increments
    requires Sound(c) && forall s :: s in stimuli ==> Fits(s)
    decreases |stimuli|
  {
    if stimuli == [] then l
    else
      StepSound(c, stimuli[0]);
      var next := Step(c, stimuli[0]);
      if next.Err? then l else AllNoted(Noted(l, c, stimuli[0]), next.value, stimuli[1..])
  }

  /** Every send window is exact after any run, and the connection's never went
      below zero: nothing sent was ever beyond the credit given. */
  lemma {:induction false} WindowsAlwaysExact(c: Conn, stimuli: seq<Stimulus>, l: Increments)
    requires Sound(c) && (forall s :: s in stimuli ==> Fits(s)) && Exact(c, l)
    ensures RunAll(c, stimuli).Ok? ==> Exact(RunAll(c, stimuli).value, AllNoted(l, c, stimuli))
    decreases |stimuli|
  {
    if stimuli != [] {
      hide Sound, Step, Exact;
      StepSound(c, stimuli[0]);
      if Step(c, stimuli[0]).Ok? {
        StepExact(c, stimuli[0], l);
        WindowsAlwaysExact(Step(c, stimuli[0]).value, stimuli[1..], Noted(l, c, stimuli[0]));
      }
    }
  }

  /** What exactness says of one live stream and of the connection. */
  lemma ExactMeans(c: Conn, l: Increments, id: StreamId)
    requires Exact(c, l) && id in c.streams.live
    ensures var sent := SentOn(Carrying(c.written), id);
            && c.streams.live[id].sendWindow.available == c.peer.initialWindow + Given(l, id) - sent
            && I32_MIN < c.streams.live[id].sendWindow.available
            && Sent(Carrying(c.written)) <= DEFAULT_INITIAL_WINDOW_SIZE + Given(l, CONNECTION)
  {
    assert ExactAt(c, l, id);
  }

  lemma NewConnExact(maxConcurrent: U32, window: WindowSize, streamWindow: WindowSize)
    ensures Exact(NewConn(maxConcurrent, window, streamWindow), map[])
  {
    var c := NewConn(maxConcurrent, window, streamWindow);
    forall j: StreamId
      ensures ExactAt(c, map[], j)
    {
      assert c.Entry(j) == None;
    }
  }
}
