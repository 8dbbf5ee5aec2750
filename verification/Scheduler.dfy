/** The round-robin writer: one visit, one lap of the ring, and the pump that
    goes on laps until nothing can be written; why it ends, and why it stops only
    when there is nothing it could still do. */
module Scheduler {
  import opened Octets
  import opened Frame
  import opened Flow
  import opened HpackCodec
  import opened Streams
  import opened ClientLeg
  import opened Ring
  import opened Sums

  // -------------------------------------------------------------------------
  // One visit.
  // -------------------------------------------------------------------------

  /** Up to `budget` octets off the front of a queue: the whole first chunk if it
      fits, the front of it otherwise. Chunks are never joined. */
  function TakeFromQueue(queue: seq<seq<Octet>>, budget: nat): (seq<Octet>, seq<seq<Octet>>) {
    if queue == [] then ([], [])
    else if |queue[0]| <= budget then (queue[0], queue[1..])
    else (queue[0][..budget], [queue[0][budget..]] + queue[1..])
  }

  /** The most that may go in one frame now: the fair share, both windows, and the
      largest frame the peer takes. */
  function Budget(c: Conn, s: Stream): nat {
    Min(Min(SEND_BUDGET, s.sendWindow.Sendable()), Min(c.connSend.Sendable(), c.peer.maxFrame))
  }

  datatype Visit = Stalled | Wrote(more: bool) | Finished

  datatype Visited = Visited(conn: Conn, visit: Visit)

  /** What one visit takes from a stream: octets, whether they end it, trailers to
      follow them, and the stream that remains. */
  datatype Taken = Taken(chunk: seq<Octet>, endStream: bool, trailers: Option<seq<Header>>, rest: Stream)

  function Take(s: Stream, budget: nat): Taken {
    var (chunk, queue) := TakeFromQueue(s.sendQueue, budget);
    var drained := queue == [];
    var trailers := if drained then s.pendingTrailers else None;
    var endStream := drained && s.sendEndStream && trailers == None;
    Taken(chunk, endStream, trailers,
          s.(queued := false, sendQueue := queue,
             pendingTrailers := if drained then None else s.pendingTrailers,
             sendEndStream := s.sendEndStream && !endStream && trailers == None))
  }

  /** The two windows and the wire, for the DATA frame of a visit. */
  function SendBody(c: Conn, id: StreamId, t: Taken): Progress
    requires |t.chunk| < U32_LIMIT
  {
    var own := t.rest.sendWindow.Consume(|t.chunk|);
    var all := c.connSend.Consume(|t.chunk|);
    if t.chunk != [] && (own == None || all == None) then Err(FlowControlError)
    else
      var spent := if t.chunk == [] then t.rest else t.rest.(sendWindow := own.value);
      var c1 := if id in c.streams.live then c.Put(id, spent) else c;
      var c2 := if t.chunk == [] then c1 else c1.(connSend := all.value);
      if t.chunk != [] || t.endStream then
        var queued :- Queue(c2, Data(id, t.chunk, t.endStream));
        ApplyEvent(queued, id, SendData(t.endStream))
      else Ok(c2)
  }

  lemma TakeFits(queue: seq<seq<Octet>>, budget: nat)
    ensures |TakeFromQueue(queue, budget).0| <= budget
  {
  }

  lemma TakeWithin(s: Stream, budget: nat)
    ensures |Take(s, budget).chunk| <= budget
  {
    TakeFits(s.sendQueue, budget);
  }

  lemma TakeKeepsState(s: Stream, budget: nat)
    ensures Take(s, budget).rest.state == s.state
  {
  }

  function VisitReady(c: Conn, id: StreamId): Result<Visited, ErrorCode> {
    if id !in c.streams.live then Ok(Visited(c, Finished))
    else
      var s := c.streams.live[id];
      var budget := Budget(c, s);
      if s.PendingSend() > 0 && budget == 0 then Ok(Visited(c.Put(id, s.(queued := false)), Stalled))
      else
        var t := Take(s, budget);
        if t.chunk == [] && !t.endStream && t.trailers == None then Ok(Visited(c.Put(id, t.rest), Finished))
        else
          TakeFits(s.sendQueue, budget);
          var c1 :- SendBody(c, id, t);
          var c2 := if t.chunk == [] then c1 else c1.(calls := c1.calls + [Released(id, |t.chunk|)]);
          var c3 :- if t.trailers == None then Ok(c2) else SendTrailers(c2, id, t.trailers.value);
          Ok(Visited(c3, Wrote(id in c3.streams.live && c3.streams.live[id].HasPendingSend())))
  }

  // -------------------------------------------------------------------------
  // One lap.
  // -------------------------------------------------------------------------

  datatype LapEnd = LapEnd(conn: Conn, stalled: seq<StreamId>, served: seq<StreamId>, wrote: bool)

  function LapNext(at: LapEnd, id: StreamId, v: Visited): LapEnd {
    match v.visit
    case Stalled => at.(conn := v.conn, stalled := at.stalled + [id])
    case Wrote(more) => at.(conn := v.conn, wrote := true, served := if more then at.served + [id] else at.served)
    case Finished => at.(conn := v.conn)
  }

  function RunLap(at: LapEnd, lap: seq<StreamId>): Result<LapEnd, ErrorCode>
    decreases |lap|
  {
    if lap == [] then Ok(at)
    else
      var v :- VisitReady(at.conn, lap[0]);
      RunLap(LapNext(at, lap[0], v), lap[1..])
  }

  function StillLive(ids: seq<StreamId>, live: map<StreamId, Stream>): seq<StreamId> {
    if ids == [] then []
    else (if ids[0] in live then [ids[0]] else []) + StillLive(ids[1..], live)
  }

  function MarkQueued(live: map<StreamId, Stream>, ids: seq<StreamId>): map<StreamId, Stream> {
    map id | id in live :: if id in ids then live[id].(queued := true) else live[id]
  }

  /** The ring after a lap: those that stalled, in their order, then those served. */
  function Rebuild(e: LapEnd): Conn {
    var ring := e.stalled + e.served;
    e.conn.(ready := StillLive(ring, e.conn.streams.live),
            streams := e.conn.streams.(live := MarkQueued(e.conn.streams.live, ring)))
  }

  function OneLap(c: Conn): Result<(Conn, bool), ErrorCode> {
    var e :- RunLap(LapEnd(c.(ready := []), [], [], false), c.ready);
    Ok((Rebuild(e), e.wrote))
  }

  function FlushResets(c: Conn): Progress
    decreases |c.pendingReset|
  {
    if c.pendingReset == [] then Ok(c)
    else
      var last := c.pendingReset[|c.pendingReset| - 1];
      var reset := WriteRst(c.(pendingReset := c.pendingReset[..|c.pendingReset| - 1]), last.0, last.1);
      FlushKeeps(c.(pendingReset := c.pendingReset[..|c.pendingReset| - 1]), last.0, last.1);
      if reset.Err? then reset else FlushResets(reset.value)
  }

  lemma FlushKeeps(c: Conn, id: StreamId, code: ErrorCode)
    ensures WriteRst(c, id, code).Ok? ==> WriteRst(c, id, code).value.pendingReset == c.pendingReset
  {
  }

  /** Octets, ends and trailers a stream still has to send. */
  function Load(s: Stream): nat {
    s.PendingSend() + (if s.sendEndStream then 1 else 0) + (if s.pendingTrailers.Some? then 1 else 0)
  }

  // -------------------------------------------------------------------------
  // What a visit does.
  // -------------------------------------------------------------------------

  lemma {:induction false} QueueNonempty(queue: seq<seq<Octet>>)
    requires forall chunk :: chunk in queue ==> chunk != []
    ensures QueuedOctets(queue) == 0 <==> queue == []
  {
    if queue != [] {
      assert queue[0] in queue;
    }
  }

  lemma TakeCounts(queue: seq<seq<Octet>>, budget: nat)
    ensures var (chunk, rest) := TakeFromQueue(queue, budget);
            QueuedOctets(queue) == |chunk| + QueuedOctets(rest)
  {
    if queue != [] && |queue[0]| > budget {
      assert ([queue[0][budget..]] + queue[1..])[1..] == queue[1..];
    }
  }

  lemma TakeKeepsNonempty(queue: seq<seq<Octet>>, budget: nat)
    requires forall chunk :: chunk in queue ==> chunk != []
    ensures forall chunk :: chunk in TakeFromQueue(queue, budget).1 ==> chunk != []
  {
    var rest := TakeFromQueue(queue, budget).1;
    forall chunk | chunk in rest
      ensures chunk != []
    {
      var i :| 0 <= i < |rest| && rest[i] == chunk;
      if |queue[0]| <= budget {
        assert chunk == queue[i + 1] && chunk in queue;
      } else if i > 0 {
        assert chunk == queue[i] && chunk in queue;
      } else {
        assert |chunk| == |queue[0]| - budget;
      }
    }
  }

  lemma TakeProper(s: Stream, budget: nat)
    requires Proper(s) && s.HasPendingSend()
    requires !(s.PendingSend() > 0 && budget == 0)
    ensures var t := Take(s, budget);
            && Proper(t.rest.(queued := t.rest.HasPendingSend()))
            && Load(t.rest) < Load(s)
            && (t.chunk != [] || t.endStream || t.trailers.Some?)
            && (t.trailers.Some? ==> ValidTrailers(t.trailers.value) && !t.rest.HasPendingSend() && !t.endStream)
            && (t.endStream ==> !t.rest.HasPendingSend())
            && (s.sendQueue != [] ==> t.chunk != [])
            && t.rest.state == s.state && t.rest.sendWindow == s.sendWindow && !t.rest.queued
  {
    hide ValidTrailers;
    QueueNonempty(s.sendQueue);
    TakeCounts(s.sendQueue, budget);
    TakeKeepsNonempty(s.sendQueue, budget);
    if s.sendQueue != [] {
      assert s.sendQueue[0] in s.sendQueue;
    }
  }

  // -------------------------------------------------------------------------
  // What a visit changes.
  // -------------------------------------------------------------------------

  /** A stream between leaving the ring and being put back. */
  predicate Unqueued(s: Stream) {
    !s.queued && Proper(s.(queued := s.HasPendingSend()))
  }

  /** The octet-carrying frame a visit adds to the wire, if it does. */
  function Carried(id: StreamId, t: Taken): seq<Frame> {
    if t.chunk != [] then [Data(id, t.chunk, t.endStream)] else []
  }

  lemma QueueDataElsewhere(c: Conn, id: StreamId, chunk: seq<Octet>, endStream: bool)
    requires Queue(c, Data(id, chunk, endStream)).Ok?
    ensures var d := Queue(c, Data(id, chunk, endStream)).value;
            && Elsewhere(c, d, id) && d.streams == c.streams && d.ready == c.ready && d.connSend == c.connSend
            && Carrying(d.written) == Carrying(c.written) + (if chunk != [] then [Data(id, chunk, endStream)] else [])
            && On(d.written, id) == On(c.written, id) + [Data(id, chunk, endStream)]
            && d.pendingReset == c.pendingReset
  {
    Logged(c.written, Data(id, chunk, endStream));
  }

  /** DATA spends both windows by its length and nothing else moves. */
  lemma SendBodyFacts(c: Conn, id: StreamId, t: Taken)
    requires id in c.streams.live && c.ready == [] && |t.chunk| < U32_LIMIT
    requires |t.chunk| <= t.rest.sendWindow.Sendable() && |t.chunk| <= c.connSend.Sendable()
    requires Unqueued(t.rest)
    ensures var r := SendBody(c, id, t);
            r.Ok? ==>
              && Elsewhere(c, r.value, id) && r.value.ready == []
              && Carrying(r.value.written) == Carrying(c.written) + Carried(id, t)
              && r.value.connSend == Window(c.connSend.available - |t.chunk|)
              && match r.value.Entry(id) {
                 case None => true
                 case Some(s) => s == t.rest.(state := s.state, sendWindow := Window(t.rest.sendWindow.available - |t.chunk|))
               }
  {
    hide ApplyEvent, Queue, Proper, On, Carrying;
    var spent := if t.chunk == [] then t.rest else t.rest.(sendWindow := t.rest.sendWindow.Consume(|t.chunk|).value);
    var c1 := c.Put(id, spent);
    var c2 := if t.chunk == [] then c1 else c1.(connSend := c1.connSend.Consume(|t.chunk|).value);
    if t.chunk != [] || t.endStream {
      var queued := Queue(c2, Data(id, t.chunk, t.endStream));
      if queued.Ok? {
        QueueDataElsewhere(c2, id, t.chunk, t.endStream);
        ApplyEventTouches(queued.value, id, SendData(t.endStream));
      }
    }
  }

  /** What a visit to a stream of the ring comes to. */
  ghost predicate VisitEffect(c: Conn, id: StreamId, v: Visited)
    requires id in c.streams.live
  {
    var s, d := c.streams.live[id], v.conn;
    && Elsewhere(c, d, id) && d.ready == []
    && match v.visit {
       case Finished => false
       case Stalled =>
         && s.PendingSend() > 0 && Budget(c, s) == 0
         && d == c.Put(id, s.(queued := false))
       case Wrote(more) =>
         && Load(s) > 0
         && (match d.Entry(id)
             case None => !more
             case Some(rest) =>
               && Unqueued(rest) && more == rest.HasPendingSend() && Load(rest) < Load(s)
               && rest.sendWindow.available == s.sendWindow.available - |Take(s, Budget(c, s)).chunk|)
         && var t := Take(s, Budget(c, s));
            && Carrying(d.written) == Carrying(c.written) + Carried(id, t)
            && d.connSend == Window(c.connSend.available - |t.chunk|)
            && |t.chunk| <= Budget(c, s)
            && (s.sendQueue != [] ==> t.chunk != [])
     }
  }

  /** Trailers with nothing before them go straight out. */
  lemma TrailersFacts(c: Conn, id: StreamId, fields: seq<Header>)
    requires ValidTrailers(fields) && c.ready == []
    requires id in c.streams.live ==> !c.streams.live[id].HasPendingSend()
    ensures var r := SendTrailers(c, id, fields);
            r.Ok? ==>
              && Touches(c, r.value, id) && r.value.ready == []
              && match r.value.Entry(id) {
                 case None => true
                 case Some(s) => id in c.streams.live && s == c.streams.live[id].(state := s.state)
               }
  {
    hide QueueHead, ApplyEvent, ValidTrailers;
    var queued := QueueHead(c, id, fields, true);
    if queued.Ok? {
      QueueHeadTouches(c, id, fields, true);
      ApplyEventTouches(queued.value, id, SendHeaders(true));
      var r := ApplyEvent(queued.value, id, SendHeaders(true));
      if r.Ok? {
        WithoutFacts(c.ready, id);
        TouchesThen(c, queued.value, r.value, id);
      }
    }
  }

  lemma VisitFacts(c: Conn, id: StreamId)
    requires id in c.streams.live && c.ready == [] && DEFAULT_MAX_FRAME_SIZE <= c.peer.maxFrame
    requires Proper(c.streams.live[id]) && c.streams.live[id].HasPendingSend()
    ensures VisitReady(c, id).Ok? ==> VisitEffect(c, id, VisitReady(c, id).value)
  {
    hide SendBody, SendTrailers, Take, ValidTrailers, QueuedOctets, On, Carrying;
    var s := c.streams.live[id];
    var budget := Budget(c, s);
    if !(s.PendingSend() > 0 && budget == 0) {
      var t := Take(s, budget);
      TakeProper(s, budget);
      TakeWithin(s, budget);
      SendBodyFacts(c, id, t);
      var sent := SendBody(c, id, t);
      if sent.Ok? {
        var c2 := if t.chunk == [] then sent.value else sent.value.(calls := sent.value.calls + [Released(id, |t.chunk|)]);
        if t.trailers.Some? {
          TrailersFacts(c2, id, t.trailers.value);
        }
      }
    }
  }

  // -------------------------------------------------------------------------
  // What a lap keeps.
  // -------------------------------------------------------------------------

  /** Part-way round: the streams of the ring are those stalled, those served and
      those still to visit, and those are the live streams with something to send.
      If nothing has been written, every stream visited had octets and no credit. */
  ghost predicate Lapping(at: LapEnd, lap: seq<StreamId>) {
    var ring := at.stalled + at.served + lap;
    && at.conn.ready == []
    && NoDuplicates(ring)
    && DEFAULT_MAX_FRAME_SIZE <= at.conn.peer.maxFrame
    && (forall id: StreamId :: LappingAt(at.conn, ring, lap, id))
    && (!at.wrote ==> at.served == [])
    && (!at.wrote ==> forall id :: id in at.stalled ==> Blocked(at.conn, id))
  }

  predicate LappingAt(c: Conn, ring: seq<StreamId>, lap: seq<StreamId>, id: StreamId) {
    match c.Entry(id)
    case None => id !in ring
    case Some(s) =>
      && Proper(s.(queued := s.HasPendingSend()))
      && (s.queued <==> id in lap)
      && (s.HasPendingSend() <==> id in ring)
  }

  /** Octets to send, and no credit for them at one level or the other. */
  predicate Blocked(c: Conn, id: StreamId) {
    && id in c.streams.live
    && c.streams.live[id].PendingSend() > 0
    && (c.streams.live[id].sendWindow.available <= 0 || c.connSend.available <= 0)
  }

  lemma NoDuplicatesConcat(x: seq<StreamId>, y: seq<StreamId>)
    ensures NoDuplicates(x + y) <==> NoDuplicates(x) && NoDuplicates(y) && forall i :: i in x ==> i !in y
  {
    var z := x + y;
    assert forall k :: 0 <= k < |x| ==> z[k] == x[k];
    assert forall k :: 0 <= k < |y| ==> z[|x| + k] == y[k];
    if NoDuplicates(x) && NoDuplicates(y) && forall i :: i in x ==> i !in y {
      forall i, j | 0 <= i < j < |z|
        ensures z[i] != z[j]
      {
        if i < |x| <= j {
          assert z[i] in x && z[j] == y[j - |x|];
        } else if |x| <= i {
          assert z[i] == y[i - |x|] && z[j] == y[j - |x|];
        }
      }
    }
  }

  /** Moving the next stream of a lap behind those stalled, or those served, or out. */
  lemma RingShuffles(stalled: seq<StreamId>, served: seq<StreamId>, lap: seq<StreamId>)
    requires lap != [] && NoDuplicates(stalled + served + lap)
    ensures var id, rest := lap[0], lap[1..];
            && id !in rest && id !in stalled && id !in served
            && NoDuplicates((stalled + [id]) + served + rest)
            && NoDuplicates(stalled + (served + [id]) + rest)
            && NoDuplicates(stalled + served + rest)
  {
    hide NoDuplicates;
    var id, rest := lap[0], lap[1..];
    assert lap == [id] + rest;
    NoDuplicatesConcat(stalled + served, lap);
    NoDuplicatesConcat(stalled, served);
    NoDuplicatesConcat([id], rest);
    NoDuplicatesConcat(stalled, [id]);
    NoDuplicatesConcat(stalled + [id], served);
    NoDuplicatesConcat((stalled + [id]) + served, rest);
    NoDuplicatesConcat(stalled + served, rest);
    assert stalled + (served + [id]) + rest == stalled + served + lap;
    assert id in lap && forall i :: i in stalled || i in served ==> i in stalled + served;
  }

  lemma VisitKeepsLap(at: LapEnd, lap: seq<StreamId>, v: Visited)
    requires Lapping(at, lap) && lap != [] && lap[0] in at.conn.streams.live
    requires VisitEffect(at.conn, lap[0], v)
    ensures Lapping(LapNext(at, lap[0], v), lap[1..])
  {
    hide Proper, QueuedOctets, On, Carrying, Take;
    var id := lap[0];
    var next := LapNext(at, id, v);
    var ring, ring1 := at.stalled + at.served + lap, next.stalled + next.served + lap[1..];
    assert id in ring && id in lap;
    assert lap == [id] + lap[1..];
    RingShuffles(at.stalled, at.served, lap);
    assert forall j :: j != id ==> (j in ring1 <==> j in ring) && (j in lap[1..] <==> j in lap);
    forall j: StreamId
      ensures LappingAt(next.conn, ring1, lap[1..], j)
    {
      assert LappingAt(at.conn, ring, lap, j);
    }
  }

  /** A visit that writes leaves less to send; any other leaves as much. */
  lemma VisitLoad(c: Conn, id: StreamId, v: Visited)
    requires id in c.streams.live && VisitEffect(c, id, v)
    ensures Total(v.conn.streams.live, Load) <= Total(c.streams.live, Load)
    ensures v.visit.Wrote? ==> Total(v.conn.streams.live, Load) < Total(c.streams.live, Load)
  {
    hide Proper, QueuedOctets, On, Carrying, Take, Total;
    var before, after := c.streams.live, v.conn.streams.live;
    assert forall j: StreamId :: v.conn.Entry(j) == (if j in after then Some(after[j]) else None);
    assert forall j: StreamId :: c.Entry(j) == (if j in before then Some(before[j]) else None);
    if id in after {
      assert after == before[id := after[id]];
      TotalPut(before, Load, id, after[id]);
    } else {
      assert after == before - {id};
      TotalSplit(before, Load, id);
    }
  }

  /** The next stream of a lap is live, in order, and has something to send. */
  lemma NextInLap(at: LapEnd, lap: seq<StreamId>)
    requires Lapping(at, lap) && lap != []
    ensures lap[0] in at.conn.streams.live
    ensures Proper(at.conn.streams.live[lap[0]]) && at.conn.streams.live[lap[0]].HasPendingSend()
  {
    assert lap[0] in lap && LappingAt(at.conn, at.stalled + at.served + lap, lap, lap[0]);
  }

  lemma {:induction false} LapFacts(at: LapEnd, lap: seq<StreamId>)
    requires Lapping(at, lap)
    ensures var r := RunLap(at, lap);
            r.Ok? ==>
              && Lapping(r.value, []) && (at.wrote ==> r.value.wrote)
              && Total(r.value.conn.streams.live, Load) <= Total(at.conn.streams.live, Load)
              && (r.value.wrote && !at.wrote ==>
                    Total(r.value.conn.streams.live, Load) < Total(at.conn.streams.live, Load))
    decreases |lap|
  {
    hide VisitReady, VisitEffect, Proper, Total, Load;
    if lap != [] {
      var id := lap[0];
      NextInLap(at, lap);
      VisitFacts(at.conn, id);
      var v := VisitReady(at.conn, id);
      if v.Ok? {
        VisitKeepsLap(at, lap, v.value);
        VisitLoad(at.conn, id, v.value);
        LapFacts(LapNext(at, id, v.value), lap[1..]);
      }
    }
  }

  lemma {:induction false} StillLiveAll(ids: seq<StreamId>, live: map<StreamId, Stream>)
    requires forall id :: id in ids ==> id in live
    ensures StillLive(ids, live) == ids
  {
    if ids != [] {
      assert ids[0] in ids;
      StillLiveAll(ids[1..], live);
    }
  }

  /** Putting the ring back together makes the bookkeeping whole again. */
  lemma RebuildFacts(e: LapEnd)
    requires Lapping(e, [])
    ensures Sound(Rebuild(e)) && Rebuild(e).ready == e.stalled + e.served
    ensures Total(Rebuild(e).streams.live, Load) == Total(e.conn.streams.live, Load)
  {
    hide QueuedOctets, Total;
    var ring := e.stalled + e.served;
    var live := e.conn.streams.live;
    assert ring + [] == ring;
    forall id | id in ring
      ensures id in live
    {
      assert LappingAt(e.conn, ring, [], id);
    }
    StillLiveAll(ring, live);
    TotalSame(live, MarkQueued(live, ring), Load);
    forall id: StreamId
      ensures SoundAt(Rebuild(e), id)
    {
      assert LappingAt(e.conn, ring, [], id);
    }
  }

  lemma LapStarts(c: Conn)
    requires Sound(c)
    ensures Lapping(LapEnd(c.(ready := []), [], [], false), c.ready)
  {
    assert [] + [] + c.ready == c.ready;
    forall id: StreamId
      ensures LappingAt(c.(ready := []), c.ready, c.ready, id)
    {
      assert SoundAt(c, id);
    }
  }

  /** One lap keeps the ring sound. One that writes leaves less to send, and one
      that writes nothing leaves every stream of the ring out of credit. */
  lemma OneLapFacts(c: Conn)
    requires Sound(c)
    ensures var r := OneLap(c);
            r.Ok? ==>
              var (d, wrote) := r.value;
              && Sound(d)
              && (wrote ==> Total(d.streams.live, Load) < Total(c.streams.live, Load))
              && (!wrote ==> forall id :: id in d.ready ==> Blocked(d, id))
  {
    hide RunLap, Lapping, Sound, Total, Proper;
    var start := LapEnd(c.(ready := []), [], [], false);
    LapStarts(c);
    LapFacts(start, c.ready);
    var r := RunLap(start, c.ready);
    if r.Ok? {
      RebuildFacts(r.value);
      if !r.value.wrote {
        NothingWritten(r.value);
      }
    }
  }

  lemma NothingWritten(e: LapEnd)
    requires Lapping(e, []) && !e.wrote
    ensures forall id :: id in e.stalled + e.served ==> Blocked(Rebuild(e), id)
  {
    forall id | id in e.stalled + e.served
      ensures Blocked(Rebuild(e), id)
    {
      assert id in e.stalled && Blocked(e.conn, id);
    }
  }

  // -------------------------------------------------------------------------
  // The pump.
  // -------------------------------------------------------------------------

  /** Laps until the write queue is full or a lap writes nothing, then the resets
      that were owed. */
  function Pump(c: Conn): Progress
    requires Sound(c)
    decreases Total(c.streams.live, Load)
  {
    OneLapFacts(c);
    if c.ready == [] || c.outLen >= MAX_WRITE_QUEUE then FlushResets(c)
    else
      var (d, wrote) :- OneLap(c);
      if wrote then Pump(d) else FlushResets(d)
  }

  /** Nothing more could be done: the write queue is at its bound, or every live
      stream with anything to send has octets queued and no credit for them. */
  ghost predicate Settled(c: Conn) {
    || c.outLen >= MAX_WRITE_QUEUE
    || forall id :: id in c.streams.live && c.streams.live[id].HasPendingSend() ==> Blocked(c, id)
  }

  lemma {:induction false} FlushFacts(c: Conn)
    requires Sound(c)
    ensures var r := FlushResets(c);
            && r.Ok? && Sound(r.value)
            && (Settled(c) ==> Settled(r.value))
            && Carrying(r.value.written) == Carrying(c.written)
    decreases |c.pendingReset|
  {
    if c.pendingReset != [] {
      hide WriteRst, Sound, Handled, Touches, On, Carrying, Settled;
      var last := c.pendingReset[|c.pendingReset| - 1];
      var b := c.(pendingReset := c.pendingReset[..|c.pendingReset| - 1]);
      SoundIgnoresResets(c, b.pendingReset);
      FlushKeeps(b, last.0, last.1);
      ResetFacts(b, last.0, last.1);
      SettledIgnoresResets(c, b.pendingReset);
      FlushFacts(WriteRst(b, last.0, last.1).value);
    }
  }

  lemma SettledIgnoresResets(c: Conn, resets: seq<(StreamId, ErrorCode)>)
    ensures Settled(c) ==> Settled(c.(pendingReset := resets))
  {
  }

  lemma SoundIgnoresResets(c: Conn, resets: seq<(StreamId, ErrorCode)>)
    requires Sound(c)
    ensures Sound(c.(pendingReset := resets))
  {
    forall id: StreamId
      ensures SoundAt(c.(pendingReset := resets), id)
    {
      assert SoundAt(c, id);
    }
  }

  lemma ResetFacts(c: Conn, id: StreamId, code: ErrorCode)
    requires Sound(c)
    ensures WriteRst(c, id, code).Ok?
    ensures var d := WriteRst(c, id, code).value;
            Sound(d) && (Settled(c) ==> Settled(d)) && Carrying(d.written) == Carrying(c.written)
  {
    hide WriteRst, SoundAt, On, Carrying;
    TouchesSelf(c, id);
    WriteRstHandled(c, c, id, code);
    var d := WriteRst(c, id, code).value;
    HandledSound(c, d, id);
    WriteRstTouches(c, id, code);
    WriteRstGrows(c, id, code);
    assert forall j: StreamId :: j in d.streams.live ==> d.Entry(j) == Some(d.streams.live[j]);
    if Settled(c) && d.outLen < MAX_WRITE_QUEUE {
      forall j | j in d.streams.live && d.streams.live[j].HasPendingSend()
        ensures Blocked(d, j)
      {
        assert c.Entry(j) == d.Entry(j);
      }
    }
  }

  lemma WriteRstGrows(c: Conn, id: StreamId, code: ErrorCode)
    ensures var d := WriteRst(c, id, code).value;
            WriteRst(c, id, code).Ok? ==> d.outLen >= c.outLen
  {
  }

  /** The scheduler is work-conserving: wherever it stops, nothing was left that it
      could have written. */
  lemma {:induction false} PumpSettles(c: Conn)
    requires Sound(c)
    ensures Pump(c).Ok? ==> Sound(Pump(c).value) && Settled(Pump(c).value)
    decreases Total(c.streams.live, Load)
  {
    hide OneLap, FlushResets, Proper, Total, Load;
    OneLapFacts(c);
    if c.ready == [] || c.outLen >= MAX_WRITE_QUEUE {
      RingSettles(c);
      FlushFacts(c);
    } else if OneLap(c).Ok? {
      var (d, wrote) := OneLap(c).value;
      if wrote {
        PumpSettles(d);
      } else {
        RingSettles(d);
        FlushFacts(d);
      }
    }
  }

  lemma RingSettles(c: Conn)
    requires Sound(c)
    requires c.outLen >= MAX_WRITE_QUEUE || forall id :: id in c.ready ==> Blocked(c, id)
    ensures Settled(c)
  {
    if c.outLen < MAX_WRITE_QUEUE {
      forall id | id in c.streams.live && c.streams.live[id].HasPendingSend()
        ensures Blocked(c, id)
      {
        assert SoundAt(c, id);
      }
    }
  }
}
