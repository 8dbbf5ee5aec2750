/** Short runs of a client connection, from its start, that meet the places where it
    does not do what is meant. */
module ClientBreaks {
  import opened Octets
  import opened Frame
  import opened Flow
  import Huffman
  import opened HpackPrimitives
  import HpackTable
  import opened HpackCodec
  import opened HeaderBlocks
  import opened Streams
  import opened ClientLeg
  import opened Ring
  import opened Scheduler
  import opened ClientRuns
  import opened ClientOrder
  import opened ClientHeads

  lemma {:induction false} TailIsShort(rest: nat)
    ensures |EncodeTail(rest)| <= rest + 1
  {
    if rest >= 128 {
      TailIsShort(rest / 128);
    }
  }

  /** A bare status takes few octets. */
  lemma StatusFits(t: HpackTable.Table, a: Octet, b: Octet, c: Octet)
    requires a < 10 && b < 10 && c < 10 && t.Fits() && t.max <= 4096
    ensures |EncodeAll(t, true, StatusOnly(a, b, c)).octets| <= 1000
  {
    hide HpackTable.Table.Find, HpackTable.Table.Insert, EncodeTail, EncodeString;
    var h := StatusOnly(a, b, c)[0];
    var one := EncodeOne(t, true, h);
    assert StatusOnly(a, b, c)[1..] == [];
    HpackTable.FindIsBest(t, h.AsField());
    HpackTable.EntryCount(t.entries);
    StringIsShort(h.name);
    StringIsShort(h.value);
    var m := t.Find(h.AsField());
    if !m.NoMatch? {
      IntIsShort(m.index, 7, 0x80);
      IntIsShort(m.index, 6, 0x40);
    }
  }

  lemma IntIsShort(value: nat, prefix: nat, high: Octet)
    requires 4 <= prefix <= 7 && high + Mask(prefix) < 256
    ensures |EncodeInt(value, prefix, high)| <= value + 2
  {
    if value >= Mask(prefix) {
      TailIsShort(value - Mask(prefix));
    }
  }

  lemma StringIsShort(s: seq<Octet>)
    requires |s| <= 100
    ensures |EncodeString(s, true)| <= 300
  {
    Huffman.EncodedLenExact(s);
    IntIsShort(|s|, 7, 0);
    if Huffman.EncodedLen(s) <= |s| {
      IntIsShort(Huffman.EncodedLen(s), 7, 128);
    }
  }

  // -------------------------------------------------------------------------
  // The runs.
  // -------------------------------------------------------------------------

  const ASKED := RequestArrives(1, [], false, Wellformed(None))

  /** A connection with one request on it, its body still to come. */
  lemma AfterAsking(maxConcurrent: U32, window: WindowSize, streamWindow: WindowSize)
    requires maxConcurrent >= 1
    ensures var c := NewConn(maxConcurrent, window, streamWindow);
            var r := OnRequest(c, 1, [], false, Wellformed(None));
            && Sound(c) && r.Ok?
            && r.value.streams.live == map[1 := NewStream(c.streams.initialSend, c.streams.initialRecv).(state := Open)]
            && r.value.streams.highestPeer == 1 && r.value.streams.highestLocal == 0 && r.value.streams.reclaimed == 0
            && r.value.written == [] && r.value.encoder == c.encoder
  {
    NewConnSound(maxConcurrent, window, streamWindow);
  }

  /** The 431 to trailers too large, on a stream that is still open. */
  lemma AfterOversized(c: Conn, s: Stream)
    requires c.streams.live == map[1 := s] && s.state.Open? && c.encoder.pending == None && c.encoder.huffman
    requires c.encoder.table.Fits() && c.encoder.table.max <= 4096
    ensures var r := RejectStream(c, 1, StatusOnly(4, 3, 1));
            && r.Ok?
            && r.value.written == c.written + [Headers(1, c.encoder.Block(StatusOnly(4, 3, 1)), true, true)]
            && r.value.streams == c.streams.(live := map[1 := s.(state := HalfClosedLocal, responseStarted := true)])
            && r.value.encoder.pending == None
  {
    hide EncodeAll;
    var status := StatusOnly(4, 3, 1);
    StatusFits(c.encoder.table, 4, 3, 1);
    assert c.encoder.Block(status) == EncodeAll(c.encoder.table, true, status).octets;
    assert c.streams.live[1 := s.(responseStarted := true)] == map[1 := s.(responseStarted := true)];
  }

  /** A head on a stream whose end has gone out is written before it is seen to be
      illegal. */
  lemma AfterHead(c: Conn, s: Stream)
    requires c.streams.live == map[1 := s] && s.state.HalfClosedLocal? && c.encoder.pending == None
    ensures var r := OnService(c, Head(1, [], false));
            r.Ok? && r.value.written == c.written + [Headers(1, [], false, true)]
  {
    hide SendTrailers, ReleaseBody, GiveUp, WriteRst, EncoderState.After;
    assert c.encoder.Block([]) == [];
  }

  /** Three stimuli, one at a time. */
  lemma Thrice(c: Conn, x: Stimulus, y: Stimulus, z: Stimulus, l: Ledger)
    requires Sound(c) && Fits(x) && Fits(y) && Fits(z)
    requires Step(c, x).Ok? && Sound(Step(c, x).value) && Step(Step(c, x).value, y).Ok?
    ensures var c1 := Step(c, x).value;
            var c2 := Step(c1, y).value;
            && Sound(c2) && (forall s :: s in [x, y, z] ==> Fits(s))
            && RunAll(c, [x, y, z]) == Step(c2, z) && RunAll(c, [x, y]) == Ok(c2)
            && (AllDutiful(c, l, [x, y, z]) <==>
                  Behaves(c, l, x) && Behaves(c1, Noted(l, c, x), y) && Behaves(c2, Noted(Noted(l, c, x), c1, y), z))
  {
    hide Step, Sound, Behaves, Noted, Fits;
    var c1 := Step(c, x).value;
    StepSound(c1, y);
    var c2 := Step(c1, y).value;
    StepSound(c2, z);
    assert [x, y, z][1..] == [y, z] && [y, z][1..] == [z] && [z][1..] == [] && [x, y][1..] == [y] && [y][1..] == [];
    var l2 := Noted(Noted(l, c, x), c1, y);
    assert AllDutiful(c2, l2, [z]) <==> Behaves(c2, l2, z);
    assert AllDutiful(c1, Noted(l, c, x), [y, z]) <==> Behaves(c1, Noted(l, c, x), y) && Behaves(c2, l2, z);
    assert RunAll(c2, [z]) == Step(c2, z);
    assert RunAll(c1, [y, z]) == Step(c2, z) && RunAll(c1, [y]) == Ok(c2);
  }

  const ANSWER := FromService(Head(1, [], false))

  /** The states a request, its oversized trailers and the answer lead through. */
  lemma OversizedReaches(maxConcurrent: U32, window: WindowSize, streamWindow: WindowSize) returns (c1: Conn, c2: Conn, c3: Conn)
    requires maxConcurrent >= 1
    ensures var c := NewConn(maxConcurrent, window, streamWindow);
            && Sound(c) && Step(c, ASKED) == Ok(c1) && Sound(c1)
            && Step(c1, OversizedArrives(1)) == Ok(c2) && Sound(c2) && Step(c2, ANSWER) == Ok(c3)
    ensures |c3.written| == 2
    ensures forall f :: f in c3.written ==> Concerns(f, 1)
    ensures EndsHere(c3.written[0])
  {
    hide OnRequest, RejectStream, OnService, Sound, EncoderState.Block, RunAll;
    var c := NewConn(maxConcurrent, window, streamWindow);
    AfterAsking(maxConcurrent, window, streamWindow);
    StepSound(c, ASKED);
    c1 := Step(c, ASKED).value;
    AfterOversized(c1, c1.streams.live[1]);
    StepSound(c1, OversizedArrives(1));
    c2 := Step(c1, OversizedArrives(1)).value;
    AfterHead(c2, c2.streams.live[1]);
    c3 := Step(c2, ANSWER).value;
    assert c1.written == [];
  }

  /** Frames of one stream, an end and another: the record goes on past the end. */
  lemma PastTheEnd(written: seq<Frame>)
    requires |written| == 2 && (forall f :: f in written ==> Concerns(f, 1)) && EndsHere(written[0])
    ensures !EndsOnce(On(written, 1))
  {
    hide On;
    assert [] + [written[0]] == [written[0]] && [written[0]] + [written[1]] == written;
    Logged([], written[0]);
    Logged([written[0]], written[1]);
    NothingOn();
    assert On(written, 1) == written;
  }

  /** A responder heard for the first time owes nothing yet. */
  lemma AnswerIsDutiful(c: Conn)
    ensures Behaves(c, NOTHING_SAID, ASKED) && Behaves(c, NOTHING_SAID, OversizedArrives(1)) && Behaves(c, NOTHING_SAID, ANSWER)
    ensures Noted(NOTHING_SAID, c, ASKED) == NOTHING_SAID && Noted(NOTHING_SAID, c, OversizedArrives(1)) == NOTHING_SAID
  {
  }

  /** A request whose trailers are too large, and a responder that, not having been
      told of the 431, begins its answer: HEADERS go out after END_STREAM. */
  lemma HeadAfterOversized(maxConcurrent: U32, window: WindowSize, streamWindow: WindowSize)
    requires maxConcurrent >= 1
    ensures var c := NewConn(maxConcurrent, window, streamWindow);
            var run := [ASKED, OversizedArrives(1), ANSWER];
            && Sound(c) && (forall s :: s in run ==> Fits(s))
            && AllDutiful(c, NOTHING_SAID, run)
            && RunAll(c, run).Ok? && !EndsOnce(On(RunAll(c, run).value.written, 1))
  {
    hide NewConn, Step, RunAll, AllDutiful, Behaves, Noted, On, EndsOnce, EndsHere, Sound;
    var c := NewConn(maxConcurrent, window, streamWindow);
    var c1, c2, c3 := OversizedReaches(maxConcurrent, window, streamWindow);
    Thrice(c, ASKED, OversizedArrives(1), ANSWER, NOTHING_SAID);
    AnswerIsDutiful(c);
    AnswerIsDutiful(c1);
    AnswerIsDutiful(c2);
    PastTheEnd(c3.written);
  }

  lemma NothingOn()
    ensures On([], 1) == []
  {
  }

  /** A request the peer resets just as the proxy sheds it: the whole connection
      ends, though it need only have dropped the news. */
  lemma ShedAfterReset(maxConcurrent: U32, window: WindowSize, streamWindow: WindowSize)
    requires maxConcurrent >= 1
    ensures var c := NewConn(maxConcurrent, window, streamWindow);
            var run := [ASKED, ResetArrives(1), FromService(Shed(1))];
            && Sound(c) && (forall s :: s in run ==> Fits(s))
            && RunAll(c, run[..2]).Ok? && RunAll(c, run) == Err(ProtocolError)
  {
    hide NewConn, Step, RunAll, AllDutiful, Sound;
    var c := NewConn(maxConcurrent, window, streamWindow);
    var c1, c2 := ResetReaches(maxConcurrent, window, streamWindow);
    Thrice(c, ASKED, ResetArrives(1), FromService(Shed(1)), NOTHING_SAID);
    assert [ASKED, ResetArrives(1), FromService(Shed(1))][..2] == [ASKED, ResetArrives(1)];
  }

  lemma ResetReaches(maxConcurrent: U32, window: WindowSize, streamWindow: WindowSize) returns (c1: Conn, c2: Conn)
    requires maxConcurrent >= 1
    ensures var c := NewConn(maxConcurrent, window, streamWindow);
            && Sound(c) && Step(c, ASKED) == Ok(c1) && Sound(c1)
            && Step(c1, ResetArrives(1)) == Ok(c2) && Sound(c2) && Step(c2, FromService(Shed(1))) == Err(ProtocolError)
  {
    hide OnRequest, Sound;
    var c := NewConn(maxConcurrent, window, streamWindow);
    AfterAsking(maxConcurrent, window, streamWindow);
    StepSound(c, ASKED);
    c1 := Step(c, ASKED).value;
    assert OnRst(c1, 1).Ok? && OnRst(c1, 1).value.streams == c1.streams.(live := map[]);
    StepSound(c1, ResetArrives(1));
    c2 := Step(c1, ResetArrives(1)).value;
  }

  /** One stream open and nothing said on it, and the writer idle. */
  predicate Fresh(c: Conn, s: Stream) {
    && c.streams.live == map[1 := s] && s.state.Open? && s.sendQueue == [] && !s.sendEndStream && s.pendingTrailers == None
    && !s.queued && s.sendWindow.available > 0 && c.connSend.available > 0 && c.peer.maxFrame >= DEFAULT_MAX_FRAME_SIZE
    && c.ready == [] && c.written == [] && c.outLen == 0 && c.pendingReset == []
  }

  lemma AskedFresh(maxConcurrent: U32, window: WindowSize, streamWindow: WindowSize) returns (c1: Conn)
    requires maxConcurrent >= 1
    ensures var c := NewConn(maxConcurrent, window, streamWindow);
            Sound(c) && Step(c, ASKED) == Ok(c1) && Sound(c1) && 1 in c1.streams.live && Fresh(c1, c1.streams.live[1])
  {
    hide Sound;
    var c := NewConn(maxConcurrent, window, streamWindow);
    NewConnSound(maxConcurrent, window, streamWindow);
    StepSound(c, ASKED);
    c1 := Step(c, ASKED).value;
    assert c1.streams.live == map[1 := NewStream(c.streams.initialSend, c.streams.initialRecv).(state := Open)];
  }

  /** The writer's visit to a stream with one octet queued. */
  lemma OctetGoesOut(c: Conn, s: Stream, octet: Octet)
    requires c.streams.live == map[1 := s] && s.state.Open? && s.sendQueue == [[octet]] && !s.sendEndStream
    requires s.pendingTrailers == None && s.sendWindow.available > 0 && c.connSend.available > 0
    requires c.peer.maxFrame >= DEFAULT_MAX_FRAME_SIZE && c.ready == [] && c.written == [] && c.pendingReset == []
    ensures var v := VisitReady(c, 1);
            && v.Ok? && v.value.visit == Wrote(false) && v.value.conn.written == [Data(1, [octet], false)]
            && v.value.conn.pendingReset == []
  {
    var budget := Budget(c, s);
    assert QueuedOctets([[octet]]) == 1 by {
      assert [[octet]][1..] == [];
    }
    assert budget >= 1;
    var t := Take(s, budget);
    assert t.chunk == [octet] && t.rest == s.(queued := false, sendQueue := []);
    assert [] + [Data(1, [octet], false)] == [Data(1, [octet], false)];
  }

  lemma PumpsOnce(c: Conn, s: Stream, octet: Octet)
    requires Sound(c) && c.ready == [1] && c.outLen == 0 && c.pendingReset == [] && c.written == []
    requires c.streams.live == map[1 := s] && s.state.Open? && s.sendQueue == [[octet]] && !s.sendEndStream
    requires s.pendingTrailers == None && s.sendWindow.available > 0 && c.connSend.available > 0
    ensures Pump(c).Ok? && Pump(c).value.written == [Data(1, [octet], false)]
  {
    hide VisitReady, Sound;
    SoundFrame(c);
    var start := LapEnd(c.(ready := []), [], [], false);
    OctetGoesOut(start.conn, s, octet);
    var v := VisitReady(start.conn, 1).value;
    assert [1 as StreamId][1..] == [];
    assert RunLap(start, [1]) == Ok(LapNext(start, 1, v));
    var d := Rebuild(LapNext(start, 1, v));
    assert OneLap(c) == Ok((d, true));
    assert d.ready == [] && d.written == [Data(1, [octet], false)] && FlushResets(d) == Ok(d);
    OneLapFacts(c);
    assert Pump(d) == FlushResets(d);
  }

  function EarlyOctet(octet: Octet): Stimulus {
    FromService(BodyData(1, [octet], false))
  }

  /** The states a request, an early octet and the writer lead through. */
  lemma EarlyReaches(maxConcurrent: U32, window: WindowSize, streamWindow: WindowSize, octet: Octet)
    returns (c1: Conn, c2: Conn, c3: Conn)
    requires maxConcurrent >= 1
    ensures var c := NewConn(maxConcurrent, window, streamWindow);
            && Sound(c) && Step(c, ASKED) == Ok(c1) && Sound(c1)
            && Step(c1, EarlyOctet(octet)) == Ok(c2) && Sound(c2) && Step(c2, WriterRuns) == Ok(c3)
            && c3.written == [Data(1, [octet], false)]
  {
    hide NewConn, Sound, OnRequest, Pump;
    c1 := AskedFresh(maxConcurrent, window, streamWindow);
    StepSound(c1, EarlyOctet(octet));
    c2 := Step(c1, EarlyOctet(octet)).value;
    assert c2.streams.live[1].sendQueue == [[octet]] by {
      assert [] + [[octet]] == [[octet]];
    }
    assert c2.streams.live == map[1 := c2.streams.live[1]];
    assert c2.ready == [1];
    PumpsOnce(c2, c2.streams.live[1], octet);
    c3 := Step(c2, WriterRuns).value;
  }

  /** An octet on a stream nobody has ended is a word a responder may say. */
  lemma EarlyIsDutiful(c: Conn, octet: Octet)
    ensures Behaves(c, NOTHING_SAID, ASKED) && Noted(NOTHING_SAID, c, ASKED) == NOTHING_SAID
    ensures Behaves(c, NOTHING_SAID, EarlyOctet(octet)) && forall l :: Behaves(c, l, WriterRuns)
  {
  }

  lemma OneOn(written: seq<Frame>, f: Frame)
    requires written == [f] && Concerns(f, 1)
    ensures On(written, 1) == [f]
  {
    hide On;
    Logged([], f);
    NothingOn();
    assert [] + [f] == [f];
  }

  /** A responder that gives an octet before its head: the response begins with DATA. */
  lemma DataComesFirst(maxConcurrent: U32, window: WindowSize, streamWindow: WindowSize, octet: Octet)
    requires maxConcurrent >= 1
    ensures var c := NewConn(maxConcurrent, window, streamWindow);
            var run := [ASKED, EarlyOctet(octet), WriterRuns];
            && Sound(c) && (forall s :: s in run ==> Fits(s))
            && AllDutiful(c, NOTHING_SAID, run)
            && RunAll(c, run).Ok? && On(RunAll(c, run).value.written, 1) == [Data(1, [octet], false)]
  {
    hide NewConn, Step, RunAll, AllDutiful, Behaves, Noted, Sound, On;
    var c := NewConn(maxConcurrent, window, streamWindow);
    var c1, c2, c3 := EarlyReaches(maxConcurrent, window, streamWindow, octet);
    Thrice(c, ASKED, EarlyOctet(octet), WriterRuns, NOTHING_SAID);
    EarlyIsDutiful(c, octet);
    EarlyIsDutiful(c1, octet);
    EarlyIsDutiful(c2, octet);
    OneOn(c3.written, Data(1, [octet], false));
  }
}
