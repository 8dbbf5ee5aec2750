/** What each stream puts on the wire: the octets the responder supplied, in
    order and none missing, and one END_STREAM after the last of them. */
module ClientOrder {
  import opened Octets
  import opened Frame
  import opened Flow
  import opened HpackCodec
  import opened HeaderBlocks
  import opened Streams
  import opened ClientLeg
  import opened Ring
  import opened Sums
  import opened Scheduler
  import opened ClientRuns

  /** What the responder has said so far on streams it was heard on: body octets
      and trailers by stream, where it gave a head, and where it has said its last. */
  datatype Ledger = Ledger(
    bodies: map<StreamId, seq<Octet>>,
    trailers: map<StreamId, seq<Header>>,
    headed: set<StreamId>,
    ended: set<StreamId>)
  {
    function BodyFor(id: StreamId): seq<Octet> {
      if id in bodies then bodies[id] else []
    }

    function TrailersFor(id: StreamId): Option<seq<Header>> {
      if id in trailers then Some(trailers[id]) else None
    }

    function Ending(id: StreamId, last: bool): Ledger {
      if last then this.(ended := ended + {id}) else this
    }
  }

  const NOTHING_SAID := Ledger(map[], map[], {}, {})

  function Heard(l: Ledger, e: ServiceEvent): Ledger {
    match e
    case Head(id, _, endStream) => l.(headed := l.headed + {id}).Ending(id, endStream)
    case BodyData(id, data, endStream) => l.(bodies := l.bodies[id := l.BodyFor(id) + data]).Ending(id, endStream)
    case Trailers(id, fields) =>
      (if ValidTrailers(fields) then l.(trailers := l.trailers[id := fields]) else l).Ending(id, true)
    case Gone(id) => l.Ending(id, true)
    case Shed(id) => l.Ending(id, true)
    case _ => l
  }

  function Noted(l: Ledger, c: Conn, s: Stimulus): Ledger {
    if s.FromService? && s.event.id in c.streams.live then Heard(l, s.event) else l
  }

  /** What a responder owes, judged by what it has itself said: nothing after its
      last word, and no answer that is only an end behind octets. */
  predicate Dutiful(l: Ledger, e: ServiceEvent) {
    match e
    case Head(id, _, endStream) => id !in l.ended && (endStream ==> l.BodyFor(id) == [])
    case BodyData(id, _, _) => id !in l.ended
    case Trailers(id, _) => id !in l.ended
    case Gone(id) => id in l.headed || (id !in l.ended && l.BodyFor(id) == [])
    case Shed(id) => id in l.headed || (id !in l.ended && l.BodyFor(id) == [])
    case _ => true
  }

  /** The body octets among a stream's frames. */
  function BodyOf(sent: seq<Frame>): seq<Octet>
    decreases |sent|
  {
    if sent == [] then []
    else
      var f := sent[|sent| - 1];
      BodyOf(sent[..|sent| - 1]) + (if f.Data? then f.data else [])
  }

  predicate EndsHere(f: Frame) {
    (f.Data? || f.Headers?) && f.endStream
  }

  predicate Ended(sent: seq<Frame>) {
    sent != [] && EndsHere(sent[|sent| - 1])
  }

  /** No frame but the last may end the stream, so nothing follows an end. */
  predicate EndsOnce(sent: seq<Frame>) {
    forall i :: 0 <= i < |sent| - 1 ==> !EndsHere(sent[i])
  }

  /** What one stream has put on the wire: an end at most once and last, after all
      of the body, and on the trailers when there are any. */
  predicate Orderly(sent: seq<Frame>, said: Option<seq<Header>>, body: seq<Octet>, trailers: Option<seq<Header>>) {
    && EndsOnce(sent)
    && (Ended(sent) ==> BodyOf(sent) == body)
    && (Ended(sent) && trailers.Some? ==> sent[|sent| - 1].Headers? && said == trailers)
  }

  /** The responder has said the last of this response, as the stream shows it. */
  predicate Finished(s: Stream) {
    s.sendEndStream || s.pendingTrailers.Some? || s.state.HalfClosedLocal?
  }

  /** A live stream holds what is left to send of what the responder said, and has
      been ended only if the responder has said its last. */
  predicate Continues(s: Stream, sent: seq<Frame>, l: Ledger, id: StreamId) {
    && BodyOf(sent) + Flatten(s.sendQueue) == l.BodyFor(id)
    && (s.state.Open? || s.state.HalfClosedRemote? || s.state.HalfClosedLocal?)
    && (s.state.HalfClosedLocal? <==> Ended(sent))
    && (s.state.HalfClosedLocal? ==> !s.HasPendingSend())
    && (id in l.ended <==> Finished(s))
    && (id in l.headed ==> s.responseStarted)
    && (id in l.trailers ==> id in l.ended)
    && (id in l.trailers && !Ended(sent) ==> s.pendingTrailers.Some?)
    && (s.pendingTrailers.Some? ==> s.pendingTrailers == l.TrailersFor(id))
  }

  predicate OrderAt(c: Conn, l: Ledger, id: StreamId) {
    var sent := On(c.written, id);
    && Orderly(sent, c.Said(id), l.BodyFor(id), l.TrailersFor(id))
    && match c.Entry(id)
       case None =>
         && BodyOf(sent) <= l.BodyFor(id)
         && (id > c.streams.highestPeer ==>
               sent == [] && l.BodyFor(id) == [] && id !in l.trailers && id !in l.headed && id !in l.ended)
       case Some(s) => id <= c.streams.highestPeer && Continues(s, sent, l, id)
  }

  ghost predicate Ordered(c: Conn, l: Ledger) {
    forall id: StreamId :: OrderAt(c, l, id)
  }

  /** A bare status ends the stream: the peer has finished, and nothing that was
      said is left unsent. */
  predicate Closable(s: Stream) {
    s.state.HalfClosedRemote? && s.sendQueue == [] && s.pendingTrailers.None?
  }

  /** The one answer the connection gives on its own, 431 to a header list too
      large, closes the stream it is given on. */
  predicate Closes(c: Conn, s: Stimulus) {
    s.OversizedArrives? && s.id in c.streams.live ==> Closable(c.streams.live[s.id])
  }

  /** The responder, where it is heard, does as it ought. */
  predicate Behaves(c: Conn, l: Ledger, s: Stimulus) {
    s.FromService? && s.event.id in c.streams.live ==> Dutiful(l, s.event)
  }

  // -------------------------------------------------------------------------
  // The steps handlers are made of.
  // -------------------------------------------------------------------------

  lemma BodySnoc(sent: seq<Frame>, f: Frame)
    ensures BodyOf(sent + [f]) == BodyOf(sent) + (if f.Data? then f.data else [])
  {
    assert (sent + [f])[..|sent|] == sent;
  }

  /** One more frame on a stream that has not ended. */
  lemma OrderlySnoc(sent: seq<Frame>, f: Frame, said: Option<seq<Header>>, body: seq<Octet>, trailers: Option<seq<Header>>)
    requires EndsOnce(sent) && !Ended(sent)
    requires EndsHere(f) ==> BodyOf(sent) + (if f.Data? then f.data else []) == body
    requires EndsHere(f) && trailers.Some? ==> f.Headers? && said == trailers
    ensures Orderly(sent + [f], said, body, trailers) && (Ended(sent + [f]) <==> EndsHere(f))
  {
    BodySnoc(sent, f);
  }

  predicate Silent(c: Conn, d: Conn, id: StreamId) {
    On(d.written, id) == On(c.written, id) && d.Said(id) == c.Said(id)
  }

  lemma DrainSilent(c: Conn, id: StreamId)
    ensures DrainReclaimed(c).Ok? && Silent(c, DrainReclaimed(c).value, id)
    ensures DrainReclaimed(c).value.Entry(id) == c.Entry(id)
    ensures DrainReclaimed(c).value.streams.highestPeer == c.streams.highestPeer
  {
    hide DrainReclaimed, On;
    var k: StreamId := if id == 0 then 1 else 0;
    DrainTouches(c, k);
  }

  lemma ReleaseConnSilent(c: Conn, n: U32, id: StreamId)
    ensures ReleaseConn(c, n).Ok? && Silent(c, ReleaseConn(c, n).value, id)
    ensures ReleaseConn(c, n).value.streams == c.streams
  {
    hide ReleaseConn, On;
    var k: StreamId := if id == 0 then 1 else 0;
    ReleaseConnTouches(c, n, k);
  }

  lemma WriteRstSilent(c: Conn, id: StreamId, code: ErrorCode)
    ensures WriteRst(c, id, code).Ok?
    ensures var d := WriteRst(c, id, code).value;
            Silent(c, d, id) && d.Entry(id) == None && d.streams.highestPeer == c.streams.highestPeer
  {
    hide DrainReclaimed, On;
    var gone := Drop(c, id);
    var told := gone.(calls := gone.calls + [Cancelled(id)]);
    DrainSilent(told, id);
    Logged(DrainReclaimed(told).value.written, RstStream(id, code));
  }

  /** A legal event moves the stream's state and, at the end of both directions,
      takes it away; an illegal one takes it away at once. Neither writes anything
      of the response. */
  lemma ApplyEventSilent(c: Conn, id: StreamId, event: StreamEvent)
    ensures var r := ApplyEvent(c, id, event);
            r.Ok? ==>
              && Silent(c, r.value, id)
              && r.value.streams.highestPeer == c.streams.highestPeer
              && r.value.Entry(id) ==
                 (if id !in c.streams.live then None
                  else
                    match Transition(c.streams.live[id].state, event)
                    case Err(_) => None
                    case Ok(next) => if next.Closed? then None else Some(c.streams.live[id].(state := next)))
  {
    hide DrainReclaimed, Transition, On;
    var (table, r) := c.streams.Apply(id, event);
    if r.Ok? && r.value.Closed? {
      DrainSilent(c.(streams := table, ready := Without(c.ready, id), calls := c.calls + [Finish(id)]), id);
    }
  }

  lemma QueueHeadGains(c: Conn, id: StreamId, fields: seq<Header>, endStream: bool)
    ensures var r := QueueHead(c, id, fields, endStream);
            r.Ok? ==>
              && On(r.value.written, id) == On(c.written, id) + [Headers(id, c.encoder.Block(fields), endStream, true)]
              && r.value.streams == c.streams && r.value.Said(id) == Some(fields)
  {
    hide EncoderState.Block, EncoderState.After, On;
    Logged(c.written, Headers(id, c.encoder.Block(fields), endStream, true));
  }

  /** A head may end a stream with nothing queued behind it, if that closes it or
      the responder has said its last. */
  predicate MayEnd(s: Stream, last: bool) {
    Closable(s) || (s.state.Open? && !s.HasPendingSend() && last)
  }

  /** A head on a stream that may still send, with the ledger as it then stands. */
  lemma HeadOrder(c: Conn, l: Ledger, m: Ledger, id: StreamId, s: Stream, fields: seq<Header>, endStream: bool, d: Conn)
    requires OrderAt(c, l, id) && c.Entry(id) == Some(s)
    requires m.bodies == l.bodies && m.trailers == l.trailers
    requires if endStream then MayEnd(s, id in m.ended) && id !in l.trailers
             else !s.state.HalfClosedLocal? && (id in m.ended <==> id in l.ended)
    requires On(d.written, id) == On(c.written, id) + [Headers(id, c.encoder.Block(fields), endStream, true)]
    requires d.streams.highestPeer == c.streams.highestPeer
    requires match Transition(s.state, SendHeaders(endStream)) {
               case Err(_) => false
               case Ok(next) => d.Entry(id) == if next.Closed? then None else Some(s.(state := next, responseStarted := true))
             }
    ensures OrderAt(d, m, id)
  {
    hide EncoderState.Block, On, BodyOf;
    var sent, f := On(c.written, id), Headers(id, c.encoder.Block(fields), endStream, true);
    BodySnoc(sent, f);
    assert BodyOf(sent) + [] == BodyOf(sent);
    if endStream {
      assert Flatten(s.sendQueue) == [];
    }
    OrderlySnoc(sent, f, d.Said(id), m.BodyFor(id), m.TrailersFor(id));
  }

  // -------------------------------------------------------------------------
  // The handlers.
  // -------------------------------------------------------------------------

  /** A stream that goes takes nothing back of what it sent. */
  lemma GoneOrder(c: Conn, d: Conn, l: Ledger, id: StreamId)
    requires OrderAt(c, l, id) && Silent(c, d, id) && d.Entry(id) == None
    requires d.streams.highestPeer >= c.streams.highestPeer
    ensures OrderAt(d, l, id)
  {
  }

  /** The peer's frames move the state without ending our side. */
  lemma IncomingOrder(c: Conn, l: Ledger, id: StreamId, event: StreamEvent)
    requires OrderAt(c, l, id) && event.Incoming()
    ensures ApplyEvent(c, id, event).Ok? ==> OrderAt(ApplyEvent(c, id, event).value, l, id)
  {
    hide ApplyEvent, On, BodyOf;
    ApplyEventSilent(c, id, event);
  }

  lemma SendResponseOrder(c: Conn, l: Ledger, m: Ledger, id: StreamId, fields: seq<Header>, endStream: bool)
    requires OrderAt(c, l, id) && id in c.streams.live
    requires m.bodies == l.bodies && m.trailers == l.trailers
    requires if endStream then MayEnd(c.streams.live[id], id in m.ended) && id !in l.trailers
             else !c.streams.live[id].state.HalfClosedLocal? && (id in m.ended <==> id in l.ended)
    ensures SendResponse(c, id, fields, endStream).Ok? ==> OrderAt(SendResponse(c, id, fields, endStream).value, m, id)
  {
    hide QueueHead, ApplyEvent, EncoderState.Block, On, BodyOf, Orderly;
    var queued := QueueHead(c, id, fields, endStream);
    if queued.Ok? {
      QueueHeadGains(c, id, fields, endStream);
      var s := c.streams.live[id];
      var started := queued.value.Put(id, s.(responseStarted := true));
      ApplyEventSilent(started, id, SendHeaders(endStream));
      var r := ApplyEvent(started, id, SendHeaders(endStream));
      if r.Ok? {
        QueueHeadTouches(c, id, fields, endStream);
        HeadOrder(c, l, m, id, s, fields, endStream, r.value);
      }
    }
  }

  lemma EnqueueSilent(c: Conn, id: StreamId)
    ensures var d := Enqueue(c, id);
            && Silent(c, d, id) && d.streams.highestPeer == c.streams.highestPeer
            && match c.Entry(id)
               case None => d.Entry(id) == None
               case Some(s) => d.Entry(id).Some? && d.Entry(id).value == s.(queued := d.Entry(id).value.queued)
  {
  }

  lemma SendTrailersOrder(c: Conn, l: Ledger, id: StreamId, fields: seq<Header>)
    requires OrderAt(c, l, id) && id in c.streams.live && id !in l.ended
    ensures SendTrailers(c, id, fields).Ok? ==>
              OrderAt(SendTrailers(c, id, fields).value, Heard(l, Trailers(id, fields)), id)
  {
    hide QueueHead, ApplyEvent, Enqueue, ValidTrailers, EncoderState.Block, On, BodyOf;
    var s := c.streams.live[id];
    if !ValidTrailers(fields) {
      EnqueueSilent(c.Put(id, s.(sendEndStream := true)), id);
    } else if s.HasPendingSend() {
      EnqueueSilent(c.Put(id, s.(pendingTrailers := Some(fields), sendEndStream := true)), id);
    } else {
      var queued := QueueHead(c, id, fields, true);
      if queued.Ok? {
        QueueHeadGains(c, id, fields, true);
        QueueHeadTouches(c, id, fields, true);
        ApplyEventSilent(queued.value, id, SendHeaders(true));
        DirectTrailersOrder(c, l, Heard(l, Trailers(id, fields)), id, s, fields, queued.value);
      }
    }
  }

  /** Trailers that go straight out end the stream themselves. */
  lemma DirectTrailersOrder(c: Conn, l: Ledger, m: Ledger, id: StreamId, s: Stream, fields: seq<Header>, queued: Conn)
    requires OrderAt(c, l, id) && c.Entry(id) == Some(s) && id !in l.ended && !s.HasPendingSend()
    requires m.BodyFor(id) == l.BodyFor(id) && m.TrailersFor(id) == Some(fields) && id in m.ended && m.headed == l.headed
    requires On(queued.written, id) == On(c.written, id) + [Headers(id, c.encoder.Block(fields), true, true)]
    requires queued.Entry(id) == Some(s) && queued.Said(id) == Some(fields)
    requires queued.streams.highestPeer == c.streams.highestPeer
    ensures ApplyEvent(queued, id, SendHeaders(true)).Ok? ==>
              OrderAt(ApplyEvent(queued, id, SendHeaders(true)).value, m, id)
  {
    hide ApplyEvent, EncoderState.Block, On, BodyOf;
    ApplyEventSilent(queued, id, SendHeaders(true));
    var sent, f := On(c.written, id), Headers(id, c.encoder.Block(fields), true, true);
    BodySnoc(sent, f);
    assert Flatten(s.sendQueue) == [];
    assert BodyOf(sent) + [] == BodyOf(sent);
    OrderlySnoc(sent, f, Some(fields), m.BodyFor(id), m.TrailersFor(id));
  }

  /** A stream that opens has sent nothing and been given nothing. */
  lemma OpenOrder(c: Conn, l: Ledger, id: StreamId, endStream: bool)
    requires OrderAt(c, l, id) && id !in c.streams.live && c.streams.OpenPeer(id).1.Ok?
    ensures var d := c.(streams := c.streams.OpenPeer(id).0);
            var r := ApplyEvent(d, id, RecvHeaders(endStream));
            r.Ok? ==>
              && OrderAt(r.value, l, id) && r.value.Entry(id).Some?
              && (endStream ==> Closable(r.value.Entry(id).value)) && id !in l.trailers
  {
    hide ApplyEvent, On;
    ApplyEventSilent(c.(streams := c.streams.OpenPeer(id).0), id, RecvHeaders(endStream));
  }

  lemma RefusedOrder(c: Conn, l: Ledger, id: StreamId)
    requires OrderAt(c, l, id) && id !in c.streams.live && c.streams.OpenPeer(id).1 == Err(Refused)
    ensures var d := c.(streams := c.streams.OpenPeer(id).0);
            WriteRst(d, id, RefusedStream).Ok? && OrderAt(WriteRst(d, id, RefusedStream).value, l, id)
  {
    hide WriteRst, On;
    WriteRstSilent(c.(streams := c.streams.OpenPeer(id).0), id, RefusedStream);
  }

  lemma RejectStreamOrder(c: Conn, l: Ledger, m: Ledger, id: StreamId, status: seq<Header>)
    requires OrderAt(c, l, id) && m.bodies == l.bodies && m.trailers == l.trailers
    requires if id in c.streams.live then MayEnd(c.streams.live[id], id in m.ended) && id !in l.trailers else m == l
    ensures RejectStream(c, id, status).Ok? ==> OrderAt(RejectStream(c, id, status).value, m, id)
  {
    hide SendResponse, ApplyEvent, WriteRst, OrderAt, Table.OpenPeer;
    if id in c.streams.live {
      SendResponseOrder(c, l, m, id, status, true);
    } else {
      var (table, admitted) := c.streams.OpenPeer(id);
      match admitted
      case Err(Protocol) =>
      case Err(Refused) => RefusedOrder(c, l, id);
      case Ok(_) =>
        OpenOrder(c, l, id, true);
        var r := ApplyEvent(c.(streams := table), id, RecvHeaders(true));
        if r.Ok? {
          SendResponseOrder(r.value, l, l, id, status, true);
        }
    }
  }

  lemma WriteRstOrder(c: Conn, l: Ledger, id: StreamId, code: ErrorCode)
    requires OrderAt(c, l, id)
    ensures WriteRst(c, id, code).Ok? && OrderAt(WriteRst(c, id, code).value, l, id)
  {
    hide WriteRst, On, BodyOf;
    WriteRstSilent(c, id, code);
    GoneOrder(c, WriteRst(c, id, code).value, l, id);
  }

  /** Nothing of the response, and nothing it depends on, has changed. */
  lemma SameOrder(c: Conn, d: Conn, l: Ledger, id: StreamId)
    requires OrderAt(c, l, id) && Silent(c, d, id) && d.streams.highestPeer == c.streams.highestPeer
    requires match c.Entry(id) {
               case None => d.Entry(id) == None
               case Some(s) =>
                 && d.Entry(id).Some?
                 && var t := d.Entry(id).value;
                    && t.state == s.state && t.sendQueue == s.sendQueue && t.sendEndStream == s.sendEndStream
                    && t.pendingTrailers == s.pendingTrailers && (s.responseStarted ==> t.responseStarted)
             }
    ensures OrderAt(d, l, id)
  {
    hide On, BodyOf, Flatten;
  }

  lemma ReleaseBodyOrder(c: Conn, l: Ledger, id: StreamId, n: U32)
    requires OrderAt(c, l, id)
    ensures ReleaseBody(c, id, n).Ok? ==> OrderAt(ReleaseBody(c, id, n).value, l, id)
  {
    hide DrainReclaimed, ReleaseConn, Receive.Release, On, OrderAt, Queue;
    if n != 0 && id in c.streams.live {
      var s := c.streams.live[id];
      var (window, update) := s.recvWindow.Release(n);
      var owed := if n > s.pendingConnRelease then 0 else s.pendingConnRelease - n;
      var released := c.Put(id, s.(recvWindow := window, pendingConnRelease := owed));
      AnnounceSilent(released, id, update);
      var told := if update.None? then released else Queue(released, WindowUpdate(id, update.value)).value;
      ReleaseConnSilent(told, n, id);
      DrainSilent(ReleaseConn(told, n).value, id);
      SameOrder(c, ReleaseBody(c, id, n).value, l, id);
    } else if n != 0 {
      DrainSilent(c, id);
      SameOrder(c, DrainReclaimed(c).value, l, id);
    }
  }

  lemma AnnounceSilent(c: Conn, id: StreamId, update: Option<U32>)
    ensures var r := if update.None? then Ok(c) else Queue(c, WindowUpdate(id, update.value));
            r.Ok? && Silent(c, r.value, id) && r.value.streams == c.streams
  {
    hide On;
    if update.Some? {
      Logged(c.written, WindowUpdate(id, update.value));
    }
  }

  lemma {:induction false} FlattenSnoc(chunks: seq<seq<Octet>>, last: seq<Octet>)
    ensures Flatten(chunks + [last]) == Flatten(chunks) + last
  {
    if chunks == [] {
      assert [] + [last] == [last] && [last][1..] == [];
    } else {
      assert (chunks + [last])[1..] == chunks[1..] + [last];
      FlattenSnoc(chunks[1..], last);
    }
  }

  /** A stream with more octets queued, and perhaps its end. */
  function Holding(s: Stream, data: seq<Octet>, endStream: bool): Stream {
    s.(sendQueue := if data == [] then s.sendQueue else s.sendQueue + [data], sendEndStream := s.sendEndStream || endStream)
  }

  lemma BodyDataOrder(c: Conn, l: Ledger, id: StreamId, data: seq<Octet>, endStream: bool)
    requires OrderAt(c, l, id) && id in c.streams.live && id !in l.ended
    ensures var e := BodyData(id, data, endStream);
            OnService(c, e) == Ok(Enqueue(c.Put(id, Holding(c.streams.live[id], data, endStream)), id)) &&
            OrderAt(OnService(c, e).value, Heard(l, e), id)
  {
    hide Enqueue, On, BodyOf, Flatten, Continues;
    var s := c.streams.live[id];
    var held := c.Put(id, Holding(s, data, endStream));
    BodyContinues(s, On(c.written, id), l, id, data, endStream);
    EnqueueSilent(held, id);
    HeldOrder(c, Enqueue(held, id), l, Heard(l, BodyData(id, data, endStream)), id, Holding(s, data, endStream));
  }

  /** More is held, and nothing written. */
  lemma HeldOrder(c: Conn, d: Conn, l: Ledger, m: Ledger, id: StreamId, held: Stream)
    requires OrderAt(c, l, id) && id in c.streams.live && Silent(c, d, id) && !Ended(On(c.written, id))
    requires Continues(held, On(c.written, id), m, id) && d.streams.highestPeer == c.streams.highestPeer
    requires d.Entry(id).Some? && d.Entry(id).value == held.(queued := d.Entry(id).value.queued)
    ensures OrderAt(d, m, id)
  {
    hide On, BodyOf, Continues;
    QueuedIsNoMatter(held, d.Entry(id).value, On(c.written, id), m, id);
  }

  /** Octets join the end of what is left to send. */
  lemma BodyContinues(s: Stream, sent: seq<Frame>, l: Ledger, id: StreamId, data: seq<Octet>, endStream: bool)
    requires Continues(s, sent, l, id) && id !in l.ended
    ensures Continues(Holding(s, data, endStream), sent, Heard(l, BodyData(id, data, endStream)), id)
    ensures !Ended(sent)
  {
    hide BodyOf, Flatten;
    FlattenSnoc(s.sendQueue, data);
    assert BodyOf(sent) + (Flatten(s.sendQueue) + data) == (BodyOf(sent) + Flatten(s.sendQueue)) + data;
    assert data == [] ==> l.BodyFor(id) + data == l.BodyFor(id);
  }

  lemma QueuedIsNoMatter(s: Stream, t: Stream, sent: seq<Frame>, l: Ledger, id: StreamId)
    requires Continues(s, sent, l, id) && t == s.(queued := t.queued)
    ensures Continues(t, sent, l, id)
  {
    hide BodyOf, Flatten;
  }

  /** With nothing said on a stream, nothing waits on it. */
  lemma NothingWaits(c: Conn, l: Ledger, id: StreamId)
    requires OrderAt(c, l, id) && id in c.streams.live && Proper(c.streams.live[id]) && l.BodyFor(id) == [] && id !in l.ended
    ensures MayEnd(c.streams.live[id], true) && id !in l.trailers
  {
    hide On, BodyOf, ValidTrailers;
    QueuedIsNotNothing(c.streams.live[id]);
  }

  lemma OnServiceOrder(c: Conn, l: Ledger, e: ServiceEvent)
    requires OrderAt(c, l, e.id) && SoundAt(c, e.id) && Behaves(c, l, FromService(e))
    ensures OnService(c, e).Ok? ==> OrderAt(OnService(c, e).value, Noted(l, c, FromService(e)), e.id)
  {
    hide SendResponse, SendTrailers, RejectStream, ReleaseBody, WriteRst, Enqueue, Proper, MayEnd, On, BodyOf;
    var id := e.id;
    match e
    case Head(_, fields, endStream) =>
      if id in c.streams.live {
        if endStream {
          NothingWaits(c, l, id);
        }
        SendResponseOrder(c, l, Heard(l, e), id, fields, endStream);
      }
    case BodyData(_, data, endStream) =>
      if id in c.streams.live {
        BodyDataOrder(c, l, id, data, endStream);
      }
    case Trailers(_, fields) =>
      if id in c.streams.live {
        SendTrailersOrder(c, l, id, fields);
      }
    case BodyAccepted(_, n) => ReleaseBodyOrder(c, l, id, n);
    case Gone(_) => GiveUpOrder(c, l, id, StatusOnly(5, 0, 2), e);
    case Shed(_) => GiveUpOrder(c, l, id, StatusOnly(5, 0, 3), e);
    case ResetStream(_, code) => WriteRstOrder(c, l, id, code);
  }

  lemma GiveUpOrder(c: Conn, l: Ledger, id: StreamId, status: seq<Header>, e: ServiceEvent)
    requires OrderAt(c, l, id) && SoundAt(c, id) && (e == Gone(id) || e == Shed(id)) && Behaves(c, l, FromService(e))
    ensures GiveUp(c, id, status).Ok? ==> OrderAt(GiveUp(c, id, status).value, Noted(l, c, FromService(e)), id)
  {
    hide WriteRst, RejectStream, Proper, MayEnd, On, BodyOf;
    var m := Noted(l, c, FromService(e));
    if id in c.streams.live && c.streams.live[id].responseStarted {
      WriteRstSilent(c, id, InternalError);
      GoneOrder(c, WriteRst(c, id, InternalError).value, l, id);
    } else {
      if id in c.streams.live {
        NothingWaits(c, l, id);
      }
      RejectStreamOrder(c, l, m, id, status);
    }
  }

  lemma OnRequestOrder(c: Conn, l: Ledger, id: StreamId, fields: seq<Header>, endStream: bool, checked: Checked)
    requires OrderAt(c, l, id)
    ensures var r := OnRequest(c, id, fields, endStream, checked); r.Ok? ==> OrderAt(r.value, l, id)
  {
    hide ApplyEvent, WriteRst, ValidTrailers, OrderAt, Table.OpenPeer;
    WriteRstOrder(c, l, id, StreamClosed);
    WriteRstOrder(c, l, id, ProtocolError);
    WriteRstOrder(c, l, id, RefusedStream);
    if id in c.streams.live {
      var told := c.(calls := c.calls + [RequestTrailers(id, fields)]);
      SameOrder(c, told, l, id);
      IncomingOrder(told, l, id, RecvHeaders(true));
    } else if !c.streams.Find(id).WasClosed? && !c.drainCommitted {
      var (table, admitted) := c.streams.OpenPeer(id);
      match admitted
      case Err(Protocol) =>
      case Err(Refused) => RefusedOrder(c, l, id);
      case Ok(_) =>
        OpenOrder(c, l, id, endStream);
        var r := ApplyEvent(c.(streams := table), id, RecvHeaders(endStream));
        if r.Ok? {
          OpenedOrder(r.value, l, id, endStream, checked);
        }
    }
  }

  lemma OpenedOrder(c: Conn, l: Ledger, id: StreamId, endStream: bool, checked: Checked)
    requires OrderAt(c, l, id)
    ensures !checked.Wellformed? ==> WriteRst(c, id, checked.code).Ok? && OrderAt(WriteRst(c, id, checked.code).value, l, id)
    ensures checked.Wellformed? ==>
              var d := if id in c.streams.live && checked.contentLength.Some? then
                         c.Put(id, c.streams.live[id].(contentLength := checked.contentLength))
                       else c;
              && OrderAt(d.(calls := d.calls + [Dispatch(id, endStream)]), l, id)
              && WriteRst(d, id, ProtocolError).Ok? && OrderAt(WriteRst(d, id, ProtocolError).value, l, id)
  {
    hide WriteRst, OrderAt, On;
    if !checked.Wellformed? {
      WriteRstOrder(c, l, id, checked.code);
    } else {
      var d := if id in c.streams.live && checked.contentLength.Some? then
                 c.Put(id, c.streams.live[id].(contentLength := checked.contentLength))
               else c;
      SameOrder(c, d, l, id);
      SameOrder(c, d.(calls := d.calls + [Dispatch(id, endStream)]), l, id);
      WriteRstOrder(d, l, id, ProtocolError);
    }
  }

  lemma OnDataOrder(c: Conn, l: Ledger, id: StreamId, data: seq<Octet>, endStream: bool)
    requires OrderAt(c, l, id) && |data| < U32_LIMIT
    ensures var r := OnData(c, id, data, endStream); r.Ok? ==> OrderAt(r.value, l, id)
  {
    hide BodyArrives, WriteRst, ReleaseConn, OrderAt, On;
    var recorded := c.connRecv.Record(|data|);
    if recorded.Some? {
      var c1 := c.(connRecv := recorded.value);
      SameOrder(c, c1, l, id);
      match c1.streams.Find(id)
      case NeverOpened =>
      case WasClosed =>
        ReleaseConnSilent(c1, |data|, id);
        SameOrder(c1, ReleaseConn(c1, |data|).value, l, id);
        WriteRstOrder(ReleaseConn(c1, |data|).value, l, id, StreamClosed);
      case Live(_) => BodyArrivesOrder(c1, l, id, data, endStream);
    }
  }

  lemma BodyArrivesOrder(c: Conn, l: Ledger, id: StreamId, data: seq<Octet>, endStream: bool)
    requires id in c.streams.live && |data| < U32_LIMIT && OrderAt(c, l, id)
    ensures var r := BodyArrives(c, id, data, endStream); r.Ok? ==> OrderAt(r.value, l, id)
  {
    hide ApplyEvent, WriteRst, DrainReclaimed, Receive.Record, OrderAt, On;
    var s := c.streams.live[id];
    var window := s.recvWindow.Record(|data|);
    var held := s.(dataReceived := s.dataReceived + |data|,
                   pendingConnRelease := SaturatingAdd(s.pendingConnRelease, |data|),
                   recvWindow := if window.Some? then window.value else s.recvWindow);
    var c1 := c.Put(id, held);
    SameOrder(c, c1, l, id);
    WriteRstOrder(c1, l, id, FlowControlError);
    WriteRstOrder(c1, l, id, ProtocolError);
    IncomingOrder(c1, l, id, RecvData(endStream));
    var applied := ApplyEvent(c1, id, RecvData(endStream));
    if applied.Ok? {
      var told := applied.value.(calls := applied.value.calls + [Body(id, data, endStream)]);
      SameOrder(applied.value, told, l, id);
      DrainSilent(told, id);
      SameOrder(told, DrainReclaimed(told).value, l, id);
      DrainSilent(applied.value, id);
      SameOrder(applied.value, DrainReclaimed(applied.value).value, l, id);
    }
  }

  lemma OnRstOrder(c: Conn, l: Ledger, id: StreamId)
    requires OrderAt(c, l, id)
    ensures OnRst(c, id).Ok? ==> OrderAt(OnRst(c, id).value, l, id)
  {
    hide DrainReclaimed, On, OrderAt;
    var gone := Drop(c, id);
    var told := gone.(calls := gone.calls + [Cancelled(id)]);
    DrainSilent(told, id);
    if id in c.streams.live {
      GoneOrder(c, DrainReclaimed(told).value, l, id);
    }
  }

  lemma OnWindowUpdateOrder(c: Conn, l: Ledger, id: StreamId, increment: U32)
    requires OrderAt(c, l, id)
    ensures var r := OnWindowUpdate(c, id, increment); r.Ok? ==> OrderAt(r.value, l, id)
  {
    hide WriteRst, Enqueue, On, OrderAt;
    WriteRstOrder(c, l, id, ProtocolError);
    WriteRstOrder(c, l, id, FlowControlError);
    var r := OnWindowUpdate(c, id, increment);
    if id in c.streams.live && increment != 0 && id != CONNECTION {
      var credited := c.streams.live[id].sendWindow.Increase(increment);
      if credited.Some? {
        EnqueueSilent(c.Put(id, c.streams.live[id].(sendWindow := credited.value)), id);
        SameOrder(c, r.value, l, id);
      }
    } else if r.Ok? && increment != 0 {
      SameOrder(c, r.value, l, id);
    }
  }

  /** What is heard on one stream is no word on another. */
  lemma HeardElsewhere(l: Ledger, e: ServiceEvent, id: StreamId)
    requires e.id != id
    ensures var m := Heard(l, e);
            && m.BodyFor(id) == l.BodyFor(id) && m.TrailersFor(id) == l.TrailersFor(id)
            && (id in m.headed <==> id in l.headed) && (id in m.ended <==> id in l.ended)
  {
    hide ValidTrailers;
  }

  lemma OtherOrder(c: Conn, d: Conn, l: Ledger, s: Stimulus, id: StreamId)
    requires OrderAt(c, l, id) && d.Entry(id) == c.Entry(id) && Silent(c, d, id)
    requires d.streams.highestPeer >= c.streams.highestPeer
    requires s.FromService? ==> s.event.id != id
    ensures OrderAt(d, Noted(l, c, s), id)
  {
    hide On, BodyOf, Flatten, Heard, Orderly, Ended;
    if s.FromService? {
      HeardElsewhere(l, s.event, id);
    }
  }

  // -------------------------------------------------------------------------
  // The writer.
  // -------------------------------------------------------------------------

  lemma TakeFlatten(queue: seq<seq<Octet>>, budget: nat)
    ensures var (chunk, rest) := TakeFromQueue(queue, budget);
            Flatten(queue) == chunk + Flatten(rest)
  {
    if queue != [] && |queue[0]| > budget {
      var rest := [queue[0][budget..]] + queue[1..];
      assert rest[1..] == queue[1..];
      assert queue[0] == queue[0][..budget] + queue[0][budget..];
      assert queue[0][..budget] + (queue[0][budget..] + Flatten(queue[1..])) == queue[0] + Flatten(queue[1..]);
    }
  }

  /** The ledger before its trailers were given. */
  function Untrailed(l: Ledger, id: StreamId, yes: bool): Ledger {
    if yes then l.(trailers := l.trailers - {id}, ended := l.ended - {id}) else l
  }

  lemma TakeShape(s: Stream, budget: nat)
    ensures var t := Take(s, budget);
            && t.rest.sendQueue == TakeFromQueue(s.sendQueue, budget).1 && t.chunk == TakeFromQueue(s.sendQueue, budget).0
            && (t.endStream ==> s.sendEndStream && s.pendingTrailers == None && t.trailers == None && t.rest.sendQueue == [])
            && (t.trailers.Some? ==> t.trailers == s.pendingTrailers && t.rest.sendQueue == [])
            && (!t.endStream && t.trailers == None ==>
                  && t.rest.pendingTrailers == s.pendingTrailers
                  && t.rest.sendEndStream == s.sendEndStream)
            && t.rest.responseStarted == s.responseStarted && t.rest.state == s.state
  {
    hide TakeFromQueue;
  }

  /** What a visit takes from a stream is the front of what is left to send. */
  lemma TakenFacts(c: Conn, l: Ledger, id: StreamId, s: Stream, budget: nat)
    requires OrderAt(c, l, id) && c.Entry(id) == Some(s) && Proper(s) && s.HasPendingSend()
    requires !(s.PendingSend() > 0 && budget == 0)
    ensures var t := Take(s, budget);
            && (s.state.Open? || s.state.HalfClosedRemote?) && t.rest.state == s.state
            && (BodyOf(On(c.written, id)) + t.chunk) + Flatten(t.rest.sendQueue) == l.BodyFor(id)
            && (t.endStream || t.trailers.Some? ==> t.rest.sendQueue == [] && !t.rest.HasPendingSend())
            && (t.endStream ==> id !in l.trailers && id in l.ended && t.trailers == None)
            && (t.trailers.Some? ==> ValidTrailers(t.trailers.value) && t.trailers == l.TrailersFor(id) && id in l.ended)
            && (!t.endStream && t.trailers == None ==>
                  && t.rest.pendingTrailers == s.pendingTrailers
                  && t.rest.sendEndStream == s.sendEndStream)
            && t.rest.responseStarted == s.responseStarted
  {
    hide On, BodyOf, ValidTrailers, Flatten, Take, TakeFromQueue, Proper, Orderly, Stream.PendingSend;
    TakeProper(s, budget);
    TakeShape(s, budget);
    TakeFlatten(s.sendQueue, budget);
    var sent, t := BodyOf(On(c.written, id)), Take(s, budget);
    assert sent + (t.chunk + Flatten(t.rest.sendQueue)) == (sent + t.chunk) + Flatten(t.rest.sendQueue);
  }

  /** The DATA frame of a visit carries the front of what is queued, and ends the
      stream only when nothing is left and no trailers wait. */
  lemma DataFrameOrder(c: Conn, d: Conn, l: Ledger, id: StreamId, rest: Stream, f: Frame)
    requires Orderly(On(c.written, id), c.Said(id), l.BodyFor(id), l.TrailersFor(id)) && !Ended(On(c.written, id))
    requires id <= c.streams.highestPeer == d.streams.highestPeer
    requires f.Data? && On(d.written, id) == On(c.written, id) + [f]
    requires (BodyOf(On(c.written, id)) + f.data) + Flatten(rest.sendQueue) == l.BodyFor(id)
    requires f.endStream ==> rest.sendQueue == [] && !rest.HasPendingSend() && id !in l.trailers
    requires id in l.ended <==> Finished(rest) || f.endStream
    requires id in l.headed ==> rest.responseStarted
    requires id in l.trailers ==> id in l.ended && rest.pendingTrailers.Some?
    requires rest.pendingTrailers.Some? ==> rest.pendingTrailers == l.TrailersFor(id)
    requires rest.state.Open? || rest.state.HalfClosedRemote?
    requires match Transition(rest.state, SendData(f.endStream)) {
               case Err(_) => false
               case Ok(next) => d.Entry(id) == if next.Closed? then None else Some(rest.(state := next))
             }
    ensures OrderAt(d, l, id)
  {
    hide On, BodyOf;
    var sent := On(c.written, id);
    BodySnoc(sent, f);
    if f.endStream {
      assert (BodyOf(sent) + f.data) + [] == BodyOf(sent) + f.data;
    }
    OrderlySnoc(sent, f, d.Said(id), l.BodyFor(id), l.TrailersFor(id));
  }

  lemma DataMoves(state: StreamState, endStream: bool)
    requires state.Open? || state.HalfClosedRemote?
    ensures Transition(state, SendData(endStream)) ==
            Ok(if !endStream then state else if state.Open? then HalfClosedLocal else Closed)
  {
  }

  /** The connection once a visit's octets are paid for. */
  function Paid(c: Conn, id: StreamId, t: Taken): Option<Conn>
    requires id in c.streams.live && |t.chunk| < U32_LIMIT
  {
    if t.chunk == [] then Some(c.Put(id, t.rest))
    else
      var own, all := t.rest.sendWindow.Consume(|t.chunk|), c.connSend.Consume(|t.chunk|);
      if own == None || all == None then None
      else Some(c.Put(id, t.rest.(sendWindow := own.value)).(connSend := all.value))
  }

  lemma PaidFacts(c: Conn, id: StreamId, t: Taken)
    requires id in c.streams.live && |t.chunk| < U32_LIMIT
    ensures SendBody(c, id, t).Ok? ==> Paid(c, id, t).Some?
    ensures Paid(c, id, t).Some? ==>
              var d := Paid(c, id, t).value;
              && id in d.streams.live && d.written == c.written && d.said == c.said
              && d.streams.highestPeer == c.streams.highestPeer
              && d.streams.live[id] == t.rest.(sendWindow := d.streams.live[id].sendWindow)
    ensures SendBody(c, id, t).Ok? ==>
              if t.chunk != [] || t.endStream then
                var queued := Queue(Paid(c, id, t).value, Data(id, t.chunk, t.endStream));
                queued.Ok? && SendBody(c, id, t) == ApplyEvent(queued.value, id, SendData(t.endStream))
              else SendBody(c, id, t).value == Paid(c, id, t).value
  {
    hide ApplyEvent, Window.Consume;
  }

  lemma SendBodyOrder(c: Conn, l: Ledger, id: StreamId, s: Stream, t: Taken, budget: nat)
    requires OrderAt(c, l, id) && c.Entry(id) == Some(s) && Proper(s) && s.HasPendingSend()
    requires !(s.PendingSend() > 0 && budget == 0) && t == Take(s, budget) && |t.chunk| < U32_LIMIT
    ensures var r := SendBody(c, id, t);
            r.Ok? ==>
              && OrderAt(r.value, Untrailed(l, id, t.trailers.Some?), id)
              && (t.trailers.Some? ==>
                    && ValidTrailers(t.trailers.value) && t.trailers == l.TrailersFor(id) && id in l.ended
                    && r.value.Entry(id).Some? && !r.value.Entry(id).value.HasPendingSend())
  {
    hide SendBody, Paid, ApplyEvent, On, BodyOf, Proper, ValidTrailers, Flatten, Take, Stream.PendingSend, Queue, Transition;
    TakenFacts(c, l, id, s, budget);
    PaidFacts(c, id, t);
    var l1 := Untrailed(l, id, t.trailers.Some?);
    var r := SendBody(c, id, t);
    if r.Ok? {
      var paid := Paid(c, id, t).value;
      var spent := paid.streams.live[id];
      if t.chunk != [] || t.endStream {
        QueueDataElsewhere(paid, id, t.chunk, t.endStream);
        DataMoves(spent.state, t.endStream);
        ApplyEventSilent(Queue(paid, Data(id, t.chunk, t.endStream)).value, id, SendData(t.endStream));
        DataFrameOrder(c, r.value, l1, id, spent, Data(id, t.chunk, t.endStream));
      } else {
        assert BodyOf(On(c.written, id)) + [] == BodyOf(On(c.written, id));
      }
    }
  }

  lemma VisitOrder(c: Conn, l: Ledger, id: StreamId)
    requires OrderAt(c, l, id) && id in c.streams.live
    requires Proper(c.streams.live[id]) && c.streams.live[id].HasPendingSend()
    ensures VisitReady(c, id).Ok? ==> OrderAt(VisitReady(c, id).value.conn, l, id)
  {
    hide SendBody, ApplyEvent, QueueHead, OrderAt, On, Proper, ValidTrailers, Take, Stream.PendingSend, EncoderState.Block;
    var s := c.streams.live[id];
    var budget := Budget(c, s);
    if s.PendingSend() > 0 && budget == 0 {
      SameOrder(c, c.Put(id, s.(queued := false)), l, id);
    } else {
      var t := Take(s, budget);
      TakeProper(s, budget);
      TakeWithin(s, budget);
      SendBodyOrder(c, l, id, s, t, budget);
      var sent := SendBody(c, id, t);
      if sent.Ok? {
        var c2 := if t.chunk == [] then sent.value else sent.value.(calls := sent.value.calls + [Released(id, |t.chunk|)]);
        SameOrder(sent.value, c2, Untrailed(l, id, t.trailers.Some?), id);
        if t.trailers.Some? {
          var queued := QueueHead(c2, id, t.trailers.value, true);
          if queued.Ok? {
            QueueHeadGains(c2, id, t.trailers.value, true);
            DirectTrailersOrder(c2, Untrailed(l, id, true), l, id, c2.streams.live[id], t.trailers.value, queued.value);
          }
        }
      }
    }
  }

  lemma VisitElsewhere(c: Conn, id: StreamId, v: Visited)
    requires id in c.streams.live && VisitEffect(c, id, v)
    ensures Elsewhere(c, v.conn, id)
  {
  }

  lemma {:induction false} LapOrdered(at: LapEnd, lap: seq<StreamId>, l: Ledger)
    requires Lapping(at, lap) && Ordered(at.conn, l)
    ensures RunLap(at, lap).Ok? ==> Ordered(RunLap(at, lap).value.conn, l)
    decreases |lap|
  {
    hide VisitReady, VisitEffect, OrderAt, Proper, On;
    if lap != [] {
      var id := lap[0];
      NextInLap(at, lap);
      VisitFacts(at.conn, id);
      var v := VisitReady(at.conn, id);
      if v.Ok? {
        VisitKeepsLap(at, lap, v.value);
        VisitOrder(at.conn, l, id);
        VisitElsewhere(at.conn, id, v.value);
        forall j: StreamId
          ensures OrderAt(v.value.conn, l, j)
        {
          if j != id {
            OtherOrder(at.conn, v.value.conn, l, WriterRuns, j);
          }
        }
        LapOrdered(LapNext(at, id, v.value), lap[1..], l);
      }
    }
  }

  lemma OneLapOrdered(c: Conn, l: Ledger)
    requires Sound(c) && Ordered(c, l)
    ensures OneLap(c).Ok? ==> Ordered(OneLap(c).value.0, l)
  {
    hide RunLap, Lapping, Sound, OrderAt, On;
    var start := LapEnd(c.(ready := []), [], [], false);
    LapStarts(c);
    forall j: StreamId
      ensures OrderAt(start.conn, l, j)
    {
      SameOrder(c, start.conn, l, j);
    }
    LapOrdered(start, c.ready, l);
    var r := RunLap(start, c.ready);
    if r.Ok? {
      forall j: StreamId
        ensures OrderAt(Rebuild(r.value), l, j)
      {
        MarkOrder(r.value, l, j);
      }
    }
  }

  lemma MarkOrder(e: LapEnd, l: Ledger, id: StreamId)
    requires OrderAt(e.conn, l, id)
    ensures OrderAt(Rebuild(e), l, id)
  {
    hide On, OrderAt;
    SameOrder(e.conn, Rebuild(e), l, id);
  }

  lemma {:induction false} FlushOrdered(c: Conn, l: Ledger)
    requires Ordered(c, l)
    ensures FlushResets(c).Ok? ==> Ordered(FlushResets(c).value, l)
    decreases |c.pendingReset|
  {
    if c.pendingReset != [] {
      hide WriteRst, Ordered;
      var last := c.pendingReset[|c.pendingReset| - 1];
      var b := c.(pendingReset := c.pendingReset[..|c.pendingReset| - 1]);
      FlushKeeps(b, last.0, last.1);
      ResetOrdered(c, b.pendingReset, last.0, last.1, l);
      FlushOrdered(WriteRst(b, last.0, last.1).value, l);
    }
  }

  lemma ResetOrdered(c: Conn, resets: seq<(StreamId, ErrorCode)>, id: StreamId, code: ErrorCode, l: Ledger)
    requires Ordered(c, l)
    ensures var r := WriteRst(c.(pendingReset := resets), id, code); r.Ok? && Ordered(r.value, l)
  {
    hide WriteRst, OrderAt, On, RingMoves, Carrying;
    var b := c.(pendingReset := resets);
    WriteRstTouches(b, id, code);
    var d := WriteRst(b, id, code).value;
    forall j: StreamId
      ensures OrderAt(d, l, j)
    {
      SameOrder(c, b, l, j);
      if j == id {
        WriteRstOrder(b, l, j, code);
      } else {
        OtherOrder(b, d, l, WriterRuns, j);
      }
    }
  }

  lemma {:induction false} PumpOrdered(c: Conn, l: Ledger)
    requires Sound(c) && Ordered(c, l)
    ensures Pump(c).Ok? ==> Ordered(Pump(c).value, l)
    decreases Total(c.streams.live, Load)
  {
    hide OneLap, FlushResets, Sound, Ordered, Total, Load;
    OneLapFacts(c);
    if c.ready == [] || c.outLen >= MAX_WRITE_QUEUE {
      FlushOrdered(c, l);
    } else if OneLap(c).Ok? {
      OneLapOrdered(c, l);
      var (d, wrote) := OneLap(c).value;
      if wrote {
        PumpOrdered(d, l);
      } else {
        FlushOrdered(d, l);
      }
    }
  }

  // -------------------------------------------------------------------------
  // Whole runs.
  // -------------------------------------------------------------------------

  lemma AboutOrder(c: Conn, l: Ledger, s: Stimulus)
    requires Sound(c) && Fits(s) && Ordered(c, l) && Behaves(c, l, s) && Closes(c, s) && !Wide(s)
    ensures Step(c, s).Ok? ==> OrderAt(Step(c, s).value, Noted(l, c, s), About(s))
  {
    hide OnService, OnRequest, RejectStream, OnData, OnRst, OnWindowUpdate, On, SoundAt, ValidTrailers, OrderAt, Dutiful, Heard,
      Closes;
    assert OrderAt(c, l, About(s)) && SoundAt(c, About(s));
    match s
    case FromService(event) => OnServiceOrder(c, l, event);
    case RequestArrives(id, fields, endStream, checked) => OnRequestOrder(c, l, id, fields, endStream, checked);
    case OversizedArrives(id) => OversizedOrder(c, l, id);
    case DataArrives(id, data, endStream) => OnDataOrder(c, l, id, data, endStream);
    case ResetArrives(id) => OnRstOrder(c, l, id);
    case CreditArrives(id, increment) => OnWindowUpdateOrder(c, l, id, increment);
    case SocketTakes(_) => SameOrder(c, Step(c, s).value, l, CONNECTION);
    case LimitMoves(_) => SameOrder(c, Step(c, s).value, l, CONNECTION);
    case DrainCommits =>
      Logged(c.written, GoAway(c.streams.highestPeer, NoError, []));
      if Step(c, s).Ok? {
        SameOrder(c, Step(c, s).value, l, CONNECTION);
      }
  }

  /** A 431 that closes its stream takes nothing from a response. */
  lemma OversizedOrder(c: Conn, l: Ledger, id: StreamId)
    requires OrderAt(c, l, id) && Closes(c, OversizedArrives(id))
    ensures var r := RejectStream(c, id, StatusOnly(4, 3, 1)); r.Ok? ==> OrderAt(r.value, l, id)
  {
    hide RejectStream, On, BodyOf;
    RejectStreamOrder(c, l, l, id, StatusOnly(4, 3, 1));
  }

  lemma SettingsOrdered(c: Conn, params: seq<Param>, l: Ledger)
    requires Ordered(c, l) && DEFAULT_MAX_FRAME_SIZE <= c.peer.maxFrame
    ensures OnSettings(c, params).Ok? ==> Ordered(OnSettings(c, params).value, l)
  {
    hide OnSettings, OrderAt, On;
    var r := OnSettings(c, params);
    if r.Ok? {
      SettingsFacts(c, params);
      forall j: StreamId
        ensures OrderAt(r.value, l, j)
      {
        SameOrder(c, r.value, l, j);
      }
    }
  }

  lemma StepOrdered(c: Conn, s: Stimulus, l: Ledger)
    requires Sound(c) && Fits(s) && Ordered(c, l) && Behaves(c, l, s) && Closes(c, s)
    ensures Step(c, s).Ok? ==> Ordered(Step(c, s).value, Noted(l, c, s))
  {
    hide Pump, OnSettings, OnService, OnRequest, RejectStream, OnData, OnRst, OnWindowUpdate, Sound, OrderAt, On, SoundAt,
      Behaves, Closes, ValidTrailers, Heard;
    if s.WriterRuns? {
      PumpOrdered(c, l);
    } else if s.SettingsArrive? {
      SoundFrame(c);
      SettingsOrdered(c, s.params, l);
    } else if Step(c, s).Ok? {
      var d := Step(c, s).value;
      if Wide(s) {
        CreditSound(c, s.increment);
        forall j: StreamId
          ensures OrderAt(d, l, j)
        {
          SameOrder(c, d, l, j);
        }
      } else {
        StepHandled(c, s);
        AboutOrder(c, l, s);
        forall j: StreamId
          ensures OrderAt(d, Noted(l, c, s), j)
        {
          if j != About(s) {
            OtherOrder(c, d, l, s, j);
          }
        }
      }
    }
  }

  /** The responder does as it ought, all along. */
  ghost predicate AllDutiful(c: Conn, l: Ledger, stimuli: seq<Stimulus>)
    requires Sound(c) && forall s :: s in stimuli ==> Fits(s)
    decreases |stimuli|
  {
    stimuli == [] ||
    (Behaves(c, l, stimuli[0]) &&
     (StepSound(c, stimuli[0]);
      Step(c, stimuli[0]).Ok? ==> AllDutiful(Step(c, stimuli[0]).value, Noted(l, c, stimuli[0]), stimuli[1..])))
  }

  /** Every 431 that goes out closes its stream. */
  ghost predicate AllClose(c: Conn, stimuli: seq<Stimulus>)
    requires Sound(c) && forall s :: s in stimuli ==> Fits(s)
    decreases |stimuli|
  {
    stimuli == [] ||
    (StepSound(c, stimuli[0]);
     Step(c, stimuli[0]).Ok? ==> Closes(c, stimuli[0]) && AllClose(Step(c, stimuli[0]).value, stimuli[1..]))
  }

  /** Every response is in order, now and after every step. */
  ghost predicate AlwaysOrdered(c: Conn, l: Ledger, stimuli: seq<Stimulus>)
    requires Sound(c) && forall s :: s in stimuli ==> Fits(s)
    decreases |stimuli|
  {
    Ordered(c, l) &&
    (stimuli == [] ||
     (StepSound(c, stimuli[0]);
      Step(c, stimuli[0]).Ok? ==> AlwaysOrdered(Step(c, stimuli[0]).value, Noted(l, c, stimuli[0]), stimuli[1..])))
  }

  /** For every stream, over any run with a responder that does as it ought: what
      was written and what is queued are, in order, exactly what the responder
      supplied; END_STREAM is written at most once, only after the last octet and,
      while the stream lives, the responder's last word; on the trailers when there
      were any; and nothing of the response follows it. It is so throughout if and
      only if every 431 closes the stream it goes out on. */
  lemma {:induction false} ResponsesAlwaysOrdered(c: Conn, stimuli: seq<Stimulus>, l: Ledger)
    requires Sound(c) && (forall s :: s in stimuli ==> Fits(s)) && Ordered(c, l) && AllDutiful(c, l, stimuli)
    ensures AlwaysOrdered(c, l, stimuli) <==> AllClose(c, stimuli)
    decreases |stimuli|
  {
    if stimuli != [] {
      hide Sound, Step, Ordered, Behaves, Closes, Noted;
      StepSound(c, stimuli[0]);
      if Step(c, stimuli[0]).Ok? {
        if Closes(c, stimuli[0]) {
          StepOrdered(c, stimuli[0], l);
          ResponsesAlwaysOrdered(Step(c, stimuli[0]).value, stimuli[1..], Noted(l, c, stimuli[0]));
        } else {
          UnclosedBreaksOrder(c, stimuli[0], l);
        }
      }
    }
  }

  lemma NewConnOrdered(maxConcurrent: U32, window: WindowSize, streamWindow: WindowSize)
    ensures Ordered(NewConn(maxConcurrent, window, streamWindow), NOTHING_SAID)
  {
    var c := NewConn(maxConcurrent, window, streamWindow);
    forall id: StreamId
      ensures OrderAt(c, NOTHING_SAID, id)
    {
      assert c.Entry(id) == None;
    }
  }

  // -------------------------------------------------------------------------
  // Where the order is broken, exactly.
  // -------------------------------------------------------------------------

  /** A header list too large on a live stream, that is in a trailer section, is
      answered at once with a status that ends the stream. The response stays in
      order exactly when that closes the stream: otherwise END_STREAM goes out a
      second time, or ahead of octets or trailers still queued, or before a
      responder that is never told has said its last. */
  lemma OversizedBreaksOrder(c: Conn, l: Ledger, id: StreamId)
    requires SoundAt(c, id) && OrderAt(c, l, id) && id in c.streams.live
    requires RejectStream(c, id, StatusOnly(4, 3, 1)).Ok?
    ensures OrderAt(RejectStream(c, id, StatusOnly(4, 3, 1)).value, l, id) <==> Closable(c.streams.live[id])
  {
    hide Proper, QueueHead, ApplyEvent, EncoderState.Block, EncoderState.After, On, BodyOf, ValidTrailers, OrderAt;
    var s, status := c.streams.live[id], StatusOnly(4, 3, 1);
    if Closable(s) {
      OversizedOrder(c, l, id);
    } else {
      var d := RejectStream(c, id, status).value;
      QueueHeadGains(c, id, status, true);
      ApplyEventSilent(QueueHead(c, id, status, true).value.Put(id, s.(responseStarted := true)), id, SendHeaders(true));
      StatusBreaksOrder(c, d, l, id, s, Headers(id, c.encoder.Block(status), true, true));
    }
  }

  /** A status with END_STREAM on a stream it does not close. */
  lemma StatusBreaksOrder(c: Conn, d: Conn, l: Ledger, id: StreamId, s: Stream, f: Frame)
    requires OrderAt(c, l, id) && c.Entry(id) == Some(s) && Proper(s) && !Closable(s) && f.Headers? && f.endStream
    requires On(d.written, id) == On(c.written, id) + [f] && d.Said(id) == Some(StatusOnly(4, 3, 1))
    requires s.state.Open? ==> d.Entry(id) == Some(s.(state := HalfClosedLocal, responseStarted := true))
    ensures !OrderAt(d, l, id)
  {
    hide On, BodyOf, ValidTrailers, StatusOnly;
    var sent := On(c.written, id);
    if s.state.HalfClosedLocal? {
      assert EndsHere((sent + [f])[|sent| - 1]);
    } else if s.state.HalfClosedRemote? {
      BodySnoc(sent, f);
      assert BodyOf(sent) + [] == BodyOf(sent);
      QueuedIsNotNothing(s);
      StatusIsNoTrailers(s, StatusOnly(4, 3, 1));
    }
  }

  lemma UnclosedBreaksOrder(c: Conn, s: Stimulus, l: Ledger)
    requires Sound(c) && Fits(s) && Ordered(c, l) && !Closes(c, s) && Step(c, s).Ok?
    ensures !Ordered(Step(c, s).value, Noted(l, c, s))
  {
    hide RejectStream, OrderAt, SoundAt;
    assert OrderAt(c, l, s.id) && SoundAt(c, s.id);
    OversizedBreaksOrder(c, l, s.id);
  }

  /** A status is never what trailers are. */
  lemma StatusIsNoTrailers(s: Stream, status: seq<Header>)
    requires Proper(s) && status == StatusOnly(4, 3, 1)
    ensures s.pendingTrailers != Some(status)
  {
    assert status[0] in status;
  }

  lemma QueuedIsNotNothing(s: Stream)
    requires Proper(s)
    ensures s.sendQueue != [] ==> Flatten(s.sendQueue) != []
  {
    if s.sendQueue != [] {
      assert s.sendQueue[0] in s.sendQueue;
    }
  }

  /** An event for a stream that has finished is dropped without a trace, as it is
      meant to be, except the two that report a failed exchange: those end the whole
      connection. */
  lemma MissingStream(c: Conn, e: ServiceEvent)
    requires e.id !in c.streams.live && e.id <= c.streams.highestPeer
    ensures OnService(c, e).Ok? <==> !e.Gone? && !e.Shed?
    ensures e.Gone? || e.Shed? ==> OnService(c, e) == Err(ProtocolError)
    ensures !e.Gone? && !e.Shed? && !e.BodyAccepted? ==> OnService(c, e) == Ok(c)
    ensures e.BodyAccepted? ==> OnService(c, e) == if e.n == 0 then Ok(c) else DrainReclaimed(c)
  {
    if e.BodyAccepted? {
      DrainTouches(c, e.id);
    }
  }
}
