/** The client's end of the bridge: what the bridge counts for a request is what its
    client's connection has queued for the stream, and the connection's own handlers
    do to the queue what the bridge's steps do to the count. */
module BridgeClients {
  import opened Octets
  import opened Frame
  import opened Flow
  import opened HpackCodec
  import opened Streams
  import opened ClientLeg
  import opened Ring
  import opened Scheduler
  import Upstream
  import B = Bridge

  /** Octets of a response in its stream's send queue. */
  function InQueue(c: Conn, id: StreamId): nat {
    if id in c.streams.live then c.streams.live[id].PendingSend() else 0
  }

  /** The bridge's count for a request is the queue of the stream it is for. */
  predicate Shows(b: B.Bridge, q: Upstream.RequestId, c: Conn, id: StreamId) {
    q in b.queues && b.queues[q] == InQueue(c, id)
  }

  lemma {:induction false} QueueGains(queue: seq<seq<Octet>>, data: seq<Octet>)
    ensures QueuedOctets(queue + [data]) == QueuedOctets(queue) + |data|
  {
    if queue == [] {
      assert [] + [data] == [data] && [data][1..] == [];
    } else {
      assert (queue + [data])[1..] == queue[1..] + [data];
      QueueGains(queue[1..], data);
    }
  }

  /** An event of the bridge reaching its client is the handler queueing its octets. */
  lemma ArrivalIsQueued(b: B.Bridge, i: nat, c: Conn)
    requires B.MayArrive(b, i) && b.flying[i].event.BodyData? && b.flying[i].event.id in c.streams.live
    requires Shows(b, b.flying[i].request, c, b.flying[i].event.id)
    ensures var a := b.flying[i];
            var r := OnService(c, a.event);
            && r.Ok? && Shows(B.Arrive(b, i), a.request, r.value, a.event.id)
            && forall j :: j != a.event.id ==> InQueue(r.value, j) == InQueue(c, j)
  {
    hide SendResponse, SendTrailers, ReleaseBody, GiveUp, WriteRst, QueuedOctets;
    var a := b.flying[i];
    QueueGains(c.streams.live[a.event.id].sendQueue, a.event.data);
  }

  /** A stream that is not there any more drops what arrives for it, as the bridge
      does for a request let go. */
  lemma ArrivalIsDropped(b: B.Bridge, i: nat, c: Conn)
    requires B.MayArrive(b, i) && b.flying[i].event.BodyData? && b.flying[i].event.id !in c.streams.live
    requires b.flying[i].request !in b.queues
    ensures OnService(c, b.flying[i].event) == Ok(c) && B.Arrive(b, i).queues == b.queues
  {
  }

  /** What may have been told to the responder meanwhile is more, and a stream that
      is still there has the queue it had. */
  predicate QueueStays(c: Conn, d: Conn, id: StreamId) {
    && c.calls <= d.calls
    && (id in d.streams.live ==> id in c.streams.live && d.streams.live[id].sendQueue == c.streams.live[id].sendQueue)
  }

  lemma ApplyKeepsQueue(c: Conn, id: StreamId, event: StreamEvent)
    ensures ApplyEvent(c, id, event).Ok? ==> QueueStays(c, ApplyEvent(c, id, event).value, id)
  {
    hide Transition, Without;
  }

  lemma TrailersKeepQueue(c: Conn, id: StreamId, fields: seq<Header>)
    ensures SendTrailers(c, id, fields).Ok? ==> QueueStays(c, SendTrailers(c, id, fields).value, id)
  {
    hide ApplyEvent, ValidTrailers, EncoderState.Block, EncoderState.After;
    var queued := QueueHead(c, id, fields, true);
    if queued.Ok? {
      ApplyKeepsQueue(queued.value, id, SendHeaders(true));
    }
  }

  lemma BodyKeepsQueue(c: Conn, id: StreamId, t: Taken)
    requires id in c.streams.live && |t.chunk| < U32_LIMIT
    ensures SendBody(c, id, t).Ok? ==> QueueStays(c.Put(id, t.rest), SendBody(c, id, t).value, id)
  {
    hide ApplyEvent;
    var own, all := t.rest.sendWindow.Consume(|t.chunk|), c.connSend.Consume(|t.chunk|);
    if t.chunk == [] || (own.Some? && all.Some?) {
      var c1 := c.Put(id, if t.chunk == [] then t.rest else t.rest.(sendWindow := own.value));
      var queued := Queue(if t.chunk == [] then c1 else c1.(connSend := all.value), Data(id, t.chunk, t.endStream));
      if queued.Ok? {
        ApplyKeepsQueue(queued.value, id, SendData(t.endStream));
      }
    }
  }

  /** What the frame of a visit takes from its stream. */
  function Chunk(c: Conn, id: StreamId): nat
    requires id in c.streams.live
  {
    |Take(c.streams.live[id], Budget(c, c.streams.live[id])).chunk|
  }

  lemma VisitTakes(c: Conn, id: StreamId)
    requires id in c.streams.live && VisitReady(c, id).Ok? && VisitReady(c, id).value.visit.Wrote?
    ensures var n, d := Chunk(c, id), VisitReady(c, id).value.conn;
            && n <= InQueue(c, id) && n <= SEND_BUDGET
            && c.calls <= d.calls && (n > 0 ==> Released(id, n) in d.calls[|c.calls|..])
            && (id in d.streams.live ==> InQueue(d, id) == InQueue(c, id) - n)
  {
    hide SendBody, SendTrailers, TakeFromQueue, QueuedOctets;
    var s := c.streams.live[id];
    var budget := Budget(c, s);
    var t := Take(s, budget);
    TakeCounts(s.sendQueue, budget);
    TakeWithin(s, budget);
    BodyKeepsQueue(c, id, t);
    var c1 := SendBody(c, id, t).value;
    var c2 := if t.chunk == [] then c1 else c1.(calls := c1.calls + [Released(id, |t.chunk|)]);
    if t.trailers.Some? {
      TrailersKeepQueue(c2, id, t.trailers.value);
    }
    var d := VisitReady(c, id).value.conn;
    assert c.calls <= c1.calls && c2.calls <= d.calls;
    if t.chunk != [] {
      assert d.calls[|c1.calls|] == Released(id, |t.chunk|) && d.calls[|c.calls|..][|c1.calls| - |c.calls|] == d.calls[|c1.calls|];
    }
  }

  /** A visit of the writer is the bridge writing out as many octets as go into the
      frame: they leave the queue and the responder is told of exactly them. */
  lemma VisitIsWriteOut(b: B.Bridge, q: Upstream.RequestId, c: Conn, id: StreamId, reported: bool)
    requires Shows(b, q, c, id) && id in c.streams.live && c.ready == [] && DEFAULT_MAX_FRAME_SIZE <= c.peer.maxFrame
    requires Proper(c.streams.live[id]) && c.streams.live[id].HasPendingSend()
    requires VisitReady(c, id).Ok? && VisitReady(c, id).value.visit.Wrote?
    ensures var n, d := Chunk(c, id), VisitReady(c, id).value.conn;
            && n <= b.queues[q] && n < U32_LIMIT
            && c.calls <= d.calls && (n > 0 ==> Released(id, n) in d.calls[|c.calls|..])
            && (id in d.streams.live ==> Shows(B.WriteOut(b, q, n, reported), q, d, id))
            && (forall j :: j != id ==> InQueue(d, j) == InQueue(c, j))
  {
    hide VisitReady, Proper, Chunk;
    VisitFacts(c, id);
    VisitTakes(c, id);
    var d := VisitReady(c, id).value.conn;
    forall j | j != id
      ensures InQueue(d, j) == InQueue(c, j)
    {
      assert d.Entry(j) == c.Entry(j);
    }
  }
}
