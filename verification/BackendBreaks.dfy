/** Short runs of a backend connection, from its start, that meet the places where
    it does not do what is meant: a later request passing one that waits, and a
    client told something out of turn. */
module BackendBreaks {
  import opened Octets
  import opened Frame
  import opened Flow
  import opened HpackCodec
  import opened Streams
  import CL = ClientLeg
  import opened Upstream
  import opened Remapping
  import opened UpstreamSteps
  import opened Waiting
  import opened Responses

  // -------------------------------------------------------------------------
  // A request that passes another.
  // -------------------------------------------------------------------------

  /** Where a connection stands: requests begun and waiting, live streams, the limit. */
  ghost predicate Stands(u: Up, begun: seq<RequestId>, waiting: seq<RequestId>, live: set<StreamId>, limit: nat) {
    && OpenedRequests(u.acts) == begun && Requests(u.pending) == waiting
    && u.streams.live.Keys == live && u.streams.maxConcurrent == limit
    && Numbered(u) && u.draining.None? && u.cancelled == {}
    && u.streams.highestLocal == (if begun == [] then 0 else 2 * |begun| - 1)
  }

  lemma LimitStands(u: Up, n: U32, begun: seq<RequestId>, waiting: seq<RequestId>, live: set<StreamId>, limit: nat)
    requires Stands(u, begun, waiting, live, limit)
    ensures var r := Upstream.OnSettings(u, [Param(MAX_CONCURRENT_STREAMS, n)]);
            r.Ok? && Stands(r.value, begun, waiting, live, n) && r.value.maxPending == u.maxPending
  {
    hide OpenedRequests, Requests;
    var params := [Param(MAX_CONCURRENT_STREAMS, n)];
    assert params[1..] == [];
    assert CL.ApplySettings(u.peer, params) == Ok(u.peer);
    assert LimitIn(params) == Some(n);
  }

  lemma BeginsStands(u: Up, m: Message, begun: seq<RequestId>, waiting: seq<RequestId>, live: set<StreamId>, limit: nat)
    requires Stands(u, begun, waiting, live, limit) && |live| < limit && m.Request? && |begun| < 1000
    ensures Stands(OnMessage(u, m), begun + [m.request], waiting, live + {2 * |begun| + 1}, limit)
    ensures OnMessage(u, m).maxPending == u.maxPending
  {
    hide OnMessage, OpenStream, OpenedRequests, Requests, Numbered;
    RequestMessage(u, m);
    assert |u.streams.live| == |u.streams.live.Keys|;
    NextIsFree(u);
    OpenShape(u, m.request, m.client, m.head, m.endStream);
    OpenNumbered(u, m.request, m.client, m.head, m.endStream);
    OpenKeepsRest(u, m.request, m.client, m.head, m.endStream);
    OpenedRequestsSnoc(u.acts, Act.Opened(StreamIdFrom(u.nextId), m.request, m.client));
  }

  lemma OpenNumbered(u: Up, request: RequestId, client: Client, head: seq<Header>, endStream: bool)
    requires Numbered(u) && CanOpenLocal(u.streams)
    ensures Numbered(OpenStream(u, request, client, head, endStream))
    ensures StreamIdFrom(u.nextId) == if u.streams.highestLocal == 0 then 1 else u.streams.highestLocal + 2
  {
    hide OpenStream;
    NextIsFree(u);
    OpenShape(u, request, client, head, endStream);
  }

  lemma OpenKeepsRest(u: Up, request: RequestId, client: Client, head: seq<Header>, endStream: bool)
    ensures var v := OpenStream(u, request, client, head, endStream);
            && v.draining == u.draining && v.cancelled == u.cancelled && v.maxPending == u.maxPending
            && v.streams.maxConcurrent == u.streams.maxConcurrent
  {
    hide EncoderState.Block, EncoderState.After;
  }

  lemma {:induction false} RequestsCount(waiting: seq<Pending>)
    ensures |Requests(waiting)| == |waiting|
  {
    if waiting != [] {
      RequestsCount(waiting[1..]);
    }
  }

  lemma WaitsStands(u: Up, m: Message, begun: seq<RequestId>, waiting: seq<RequestId>, live: set<StreamId>, limit: nat)
    requires Stands(u, begun, waiting, live, limit) && |live| >= limit && |waiting| < u.maxPending && m.Request?
    ensures Stands(OnMessage(u, m), begun, waiting + [m.request], live, limit)
    ensures OnMessage(u, m).maxPending == u.maxPending
  {
    hide OpenStream, OpenedRequests, Requests;
    RequestsCount(u.pending);
    RequestsSnoc(u.pending, Pending(m.request, m.client, m.head, m.endStream, [], None));
    assert |u.streams.live| == |u.streams.live.Keys|;
  }

  lemma ResetStands(u: Up, id: StreamId, begun: seq<RequestId>, waiting: seq<RequestId>, live: set<StreamId>, limit: nat)
    requires Stands(u, begun, waiting, live, limit) && id != CONNECTION
    ensures var r := Upstream.OnWindowUpdate(u, id, 0);
            r.Ok? && Stands(r.value, begun, waiting, live - {id}, limit)
  {
    hide OpenedRequests, Requests;
  }

  lemma {:induction false} BegunIsOnRecord(acts: seq<Act>)
    ensures forall a :: a in acts && a.Opened? ==> a.request in OpenedRequests(acts)
    decreases |acts|
  {
    if acts != [] {
      BegunIsOnRecord(acts[..|acts| - 1]);
      assert acts == acts[..|acts| - 1] + [acts[|acts| - 1]];
    }
  }

  lemma {:induction false} WaitingIsInLine(waiting: seq<Pending>)
    ensures forall i :: 0 <= i < |waiting| ==> waiting[i].request in Requests(waiting)
  {
    if waiting != [] {
      WaitingIsInLine(waiting[1..]);
      assert forall i :: 0 < i < |waiting| ==> waiting[i] == waiting[1..][i - 1];
    }
  }

  /** A request that has not come yet. */
  lemma NewIsHonest(u: Up, s: UpStep, begun: seq<RequestId>, waiting: seq<RequestId>, live: set<StreamId>, limit: nat)
    requires Stands(u, begun, waiting, live, limit) && s.Hears? && s.message.Request?
    requires s.message.request !in begun && s.message.request !in waiting
    ensures Honest(u, s.message)
  {
    BegunIsOnRecord(u.acts);
    WaitingIsInLine(u.pending);
  }

  ghost predicate Leads(u: Up, t: Tally, steps: seq<UpStep>, v: Up) {
    Plausible(u, steps) && Remapping.DoAll(u, t, steps).Ok? && Remapping.DoAll(u, t, steps).value.up == v
  }

  lemma LeadsOn(u: Up, t: Tally, s: UpStep, rest: seq<UpStep>, v: Up)
    requires Fits(u, s) && (s.Hears? ==> Honest(u, s.message)) && Advance(u, s).Ok?
    requires Leads(Advance(u, s).value, Tallied(t, u, s), rest, v)
    ensures Leads(u, t, [s] + rest, v)
  {
    hide Advance, Honest, Tallied;
    assert ([s] + rest)[1..] == rest;
  }

  function Ask(request: RequestId): UpStep {
    Hears(Request(request, Client(0, 1), [], false))
  }

  function Allow(n: U32): UpStep {
    SettingsArrive([Param(MAX_CONCURRENT_STREAMS, n)])
  }

  /** A limit of one and two requests: the first is begun, the second waits. */
  lemma TwoStand(maxPending: nat, window: CL.WindowSize, streamWindow: CL.WindowSize) returns (u1: Up, u2: Up, u3: Up)
    requires maxPending >= 1
    ensures Advance(NewUp(maxPending, window, streamWindow), Allow(1)) == Ok(u1)
    ensures Advance(u1, Ask(0)) == Ok(u2) && Honest(u1, Ask(0).message)
    ensures Advance(u2, Ask(1)) == Ok(u3) && Honest(u2, Ask(1).message)
    ensures Stands(u3, [0], [1], {1}, 1)
  {
    hide NewUp, OnMessage, Upstream.OnSettings, Stands, Honest;
    var u0 := NewUp(maxPending, window, streamWindow);
    NewStands(maxPending, window, streamWindow);
    LimitStands(u0, 1, [], [], {}, u0.streams.maxConcurrent);
    u1 := Advance(u0, Allow(1)).value;
    BeginsStands(u1, Ask(0).message, [], [], {}, 1);
    NewIsHonest(u1, Ask(0), [], [], {}, 1);
    u2 := Advance(u1, Ask(0)).value;
    assert {} + {1 as StreamId} == {1} && [] + [0] == [0];
    WaitsStands(u2, Ask(1).message, [0], [], {1}, 1);
    NewIsHonest(u2, Ask(1), [0], [], {1}, 1);
    u3 := Advance(u2, Ask(1)).value;
    assert [] + [1] == [1];
  }

  /** Whatever frees a place behind the second of two requests, a third takes it. */
  lemma ThirdPasses(maxPending: nat, window: CL.WindowSize, streamWindow: CL.WindowSize, t: Tally, frees: UpStep) returns (v: Up)
    requires maxPending >= 1 && (frees == Allow(2) || frees == CreditArrives(1, 0))
    ensures Leads(NewUp(maxPending, window, streamWindow), t, [Allow(1), Ask(0), Ask(1), frees, Ask(2)], v)
    ensures OpenedRequests(v.acts) == [0, 2] && Requests(v.pending) == [1]
  {
    hide NewUp, OnMessage, Leads, Stands, Honest;
    var u1, u2, u3 := TwoStand(maxPending, window, streamWindow);
    var u4 := FreesStands(u3, frees);
    v := Advance(u4, Ask(2)).value;
    FiveLead(NewUp(maxPending, window, streamWindow), u1, u2, u3, u4, v, t, frees);
  }

  lemma StandsShow(u: Up, begun: seq<RequestId>, waiting: seq<RequestId>, live: set<StreamId>, limit: nat)
    requires Stands(u, begun, waiting, live, limit)
    ensures OpenedRequests(u.acts) == begun && Requests(u.pending) == waiting
  {
  }

  lemma FreesStands(u: Up, frees: UpStep) returns (v: Up)
    requires Stands(u, [0], [1], {1}, 1) && (frees == Allow(2) || frees == CreditArrives(1, 0))
    ensures Advance(u, frees) == Ok(v) && Honest(v, Ask(2).message)
    ensures var w := OnMessage(v, Ask(2).message); OpenedRequests(w.acts) == [0, 2] && Requests(w.pending) == [1]
  {
    hide OnMessage, Upstream.OnSettings, Upstream.OnWindowUpdate, Honest, Stands, OpenedRequests, Requests;
    if frees == Allow(2) {
      LimitStands(u, 2, [0], [1], {1}, 1);
      v := Advance(u, frees).value;
      BeginsStands(v, Ask(2).message, [0], [1], {1}, 2);
      StandsShow(OnMessage(v, Ask(2).message), [0] + [2], [1], {1} + {3}, 2);
      NewIsHonest(v, Ask(2), [0], [1], {1}, 2);
    } else {
      ResetStands(u, 1, [0], [1], {1}, 1);
      assert {1} - {1} == {};
      v := Advance(u, frees).value;
      BeginsStands(v, Ask(2).message, [0], [1], {}, 1);
      StandsShow(OnMessage(v, Ask(2).message), [0] + [2], [1], {} + {3}, 1);
      NewIsHonest(v, Ask(2), [0], [1], {}, 1);
    }
    assert [0] + [2] == [0, 2];
  }

  lemma NewStands(maxPending: nat, window: CL.WindowSize, streamWindow: CL.WindowSize)
    ensures var u := NewUp(maxPending, window, streamWindow);
            Stands(u, [], [], {}, u.streams.maxConcurrent) && u.maxPending == maxPending
  {
  }

  lemma FiveLead(u0: Up, u1: Up, u2: Up, u3: Up, u4: Up, v: Up, t: Tally, frees: UpStep)
    requires !frees.Hears? && Fits(u3, frees)
    requires Advance(u0, Allow(1)) == Ok(u1) && Advance(u1, Ask(0)) == Ok(u2) && Advance(u2, Ask(1)) == Ok(u3)
    requires Advance(u3, frees) == Ok(u4) && Advance(u4, Ask(2)) == Ok(v)
    requires Honest(u1, Ask(0).message) && Honest(u2, Ask(1).message) && Honest(u4, Ask(2).message)
    ensures Leads(u0, t, [Allow(1), Ask(0), Ask(1), frees, Ask(2)], v)
  {
    hide Advance, Honest, Tallied, Leads;
    var t1 := Tallied(t, u0, Allow(1));
    var t2 := Tallied(t1, u1, Ask(0));
    var t3 := Tallied(t2, u2, Ask(1));
    var t4 := Tallied(t3, u3, frees);
    LeadsNowhere(v, Tallied(t4, u4, Ask(2)));
    LeadsOn(u4, t4, Ask(2), [], v);
    LeadsOn(u3, t3, frees, [Ask(2)] + [], v);
    LeadsOn(u2, t2, Ask(1), [frees] + ([Ask(2)] + []), v);
    LeadsOn(u1, t1, Ask(0), [Ask(1)] + ([frees] + ([Ask(2)] + [])), v);
    LeadsOn(u0, t, Allow(1), [Ask(0)] + ([Ask(1)] + ([frees] + ([Ask(2)] + []))), v);
    assert [Allow(1)] + ([Ask(0)] + ([Ask(1)] + ([frees] + ([Ask(2)] + [])))) == [Allow(1), Ask(0), Ask(1), frees, Ask(2)];
  }

  lemma LeadsNowhere(u: Up, t: Tally)
    ensures Leads(u, t, [], u)
  {
  }

  /** A limit of one, two requests, and the limit raised: a third is begun while the
      second waits. */
  lemma RaisedLimitOvertakes(maxPending: nat, window: CL.WindowSize, streamWindow: CL.WindowSize)
    requires maxPending >= 1
    ensures var u, run := NewUp(maxPending, window, streamWindow), [Allow(1), Ask(0), Ask(1), Allow(2), Ask(2)];
            && Plausible(u, run)
            && var end := Remapping.DoAll(u, Tally(0, Returns(map[], window)), run);
               end.Ok? && OpenedRequests(end.value.up.acts) == [0, 2] && Requests(end.value.up.pending) == [1]
  {
    hide NewUp, Plausible, Remapping.DoAll, OpenedRequests, Requests;
    var v := ThirdPasses(maxPending, window, streamWindow, Tally(0, Returns(map[], window)), Allow(2));
  }

  /** A limit of one, two requests, and the first one's stream reset by a
      WINDOW_UPDATE of nothing: the same. */
  lemma ResetOvertakes(maxPending: nat, window: CL.WindowSize, streamWindow: CL.WindowSize)
    requires maxPending >= 1
    ensures var u, run := NewUp(maxPending, window, streamWindow), [Allow(1), Ask(0), Ask(1), CreditArrives(1, 0), Ask(2)];
            && Plausible(u, run)
            && var end := Remapping.DoAll(u, Tally(0, Returns(map[], window)), run);
               end.Ok? && OpenedRequests(end.value.up.acts) == [0, 2] && Requests(end.value.up.pending) == [1]
  {
    hide NewUp, Plausible, Remapping.DoAll, OpenedRequests, Requests;
    var v := ThirdPasses(maxPending, window, streamWindow, Tally(0, Returns(map[], window)), CreditArrives(1, 0));
  }

  // -------------------------------------------------------------------------
  // A client told something out of turn.
  // -------------------------------------------------------------------------

  const HEADERS_ARRIVE := ResponseArrives(1, [], false, Final)

  /** A connection with one request on it: nothing told, and everything owed. */
  lemma AskedOwes(maxPending: nat, window: CL.WindowSize, streamWindow: CL.WindowSize) returns (u: Up)
    ensures var u0 := NewUp(maxPending, window, streamWindow);
            && Advance(u0, Ask(0)) == Ok(u) && Honest(u0, Ask(0).message)
            && Kept(u, 0, Returns(map[], window)) && Owes(u)
    ensures 1 in u.routes && !u.routes[1].headSent && 1 in u.streams.live && u.streams.live[1].state.PeerCanSend()
    ensures u.connRecv == Flow.Opened(window) && u.streams.live[1].recvWindow == Flow.Opened(streamWindow)
  {
    hide Kept, Owes, OpenStream, Unseen;
    var u0 := NewUp(maxPending, window, streamWindow);
    NewUpKept(maxPending, window, streamWindow);
    NewUpOwes(maxPending, window, streamWindow);
    NobodySeen(u0);
    var m := Ask(0).message;
    u := OnMessage(u0, m);
    OnMessageKept(u0, m, 0, Returns(map[], window));
    OnMessageOwes(u0, m, 0, Returns(map[], window));
    assert Returning(Returns(map[], window), u0, m) == Returns(map[], window);
    FirstOpens(u0, m.request, m.client, m.head, m.endStream);
  }

  lemma NobodySeen(u: Up)
    requires u.acts == [] && u.pending == []
    ensures forall q: RequestId :: Unseen(u, q)
  {
  }

  lemma FirstOpens(u: Up, request: RequestId, client: Client, head: seq<Header>, endStream: bool)
    requires u.streams.live == map[] && u.streams.highestLocal == 0 && u.nextId == 1 && u.streams.maxConcurrent > 0
    ensures var v := OpenStream(u, request, client, head, endStream);
            && 1 in v.routes && !v.routes[1].headSent && v.connRecv == u.connRecv
            && 1 in v.streams.live && v.streams.live[1].state.PeerCanSend()
            && v.streams.live[1].recvWindow == Flow.Opened(u.streams.initialRecv)
  {
    hide EncoderState.Block, EncoderState.After;
  }

  /** A head on a stream that is there to have it. */
  lemma HeadGoesThrough(u: Up)
    requires 1 in u.routes && !u.routes[1].headSent && 1 in u.streams.live && u.streams.live[1].state.PeerCanSend()
    ensures var r := OnResponse(u, 1, [], false, Final);
            && r.Ok? && 1 in r.value.routes && r.value.routes[1].headSent && 1 in r.value.streams.live
  {
    hide FailStream, Forget;
  }

  lemma NoTrailersAreValid()
    ensures CL.ValidTrailers([])
  {
  }

  /** Trailers that do not end the stream, and then more: the client is told of both,
      though it has heard the last word. */
  lemma TrailersGoOn(maxPending: nat, window: CL.WindowSize, streamWindow: CL.WindowSize)
    ensures var u, run := NewUp(maxPending, window, streamWindow), [Ask(0), HEADERS_ARRIVE, HEADERS_ARRIVE, HEADERS_ARRIVE];
            && Plausible(u, run)
            && var end := Remapping.DoAll(u, Tally(0, Returns(map[], window)), run);
               end.Ok? && !Responses.Told(end.value.up)
  {
    hide NewUp, Plausible, Remapping.DoAll, OnMessage, OnResponse, Kept, Owes, Unfinished, Responses.Told, Honest, CL.ValidTrailers;
    var u0 := NewUp(maxPending, window, streamWindow);
    var u1 := AskedOwes(maxPending, window, streamWindow);
    HeadGoesThrough(u1);
    StepOwes(u1, HEADERS_ARRIVE, 0, Returns(map[], window));
    var u2 := Advance(u1, HEADERS_ARRIVE).value;
    NoTrailersAreValid();
    StrayOwes(u2, HEADERS_ARRIVE);
    var u3 := Advance(u2, HEADERS_ARRIVE).value;
    StrayIsHeard(u3, 1);
    var t := Tally(0, Returns(map[], window));
    var u4 := Advance(u3, HEADERS_ARRIVE).value;
    LeadsNowhere(u4, t);
    SameTally(t, u3);
    LeadsOn(u3, t, HEADERS_ARRIVE, [], u4);
    SameTally(t, u2);
    LeadsOn(u2, t, HEADERS_ARRIVE, [HEADERS_ARRIVE] + [], u4);
    SameTally(t, u1);
    LeadsOn(u1, t, HEADERS_ARRIVE, [HEADERS_ARRIVE] + ([HEADERS_ARRIVE] + []), u4);
    SameTally(t, u0);
    LeadsOn(u0, t, Ask(0), [HEADERS_ARRIVE] + ([HEADERS_ARRIVE] + ([HEADERS_ARRIVE] + [])), u4);
    assert [Ask(0)] + ([HEADERS_ARRIVE] + ([HEADERS_ARRIVE] + ([HEADERS_ARRIVE] + [])))
        == [Ask(0), HEADERS_ARRIVE, HEADERS_ARRIVE, HEADERS_ARRIVE];
  }

  lemma SameTally(t: Tally, u: Up)
    ensures Tallied(t, u, HEADERS_ARRIVE) == t && Tallied(t, u, Ask(0)) == t && Tallied(t, u, OversizedArrives(1)) == t
  {
  }

  /** Octets before any head, and then a head too large: the client is answered with
      an end behind octets it already has. */
  lemma OctetsBeforeHead(maxPending: nat, window: CL.WindowSize, streamWindow: CL.WindowSize, octet: Octet)
    requires window >= 1 && streamWindow >= 1
    ensures var u := NewUp(maxPending, window, streamWindow);
            var run := [Ask(0), BodyArrives(1, [octet], false), OversizedArrives(1)];
            && Plausible(u, run)
            && var end := Remapping.DoAll(u, Tally(0, Returns(map[], window)), run);
               end.Ok? && !Responses.Told(end.value.up)
  {
    hide NewUp, Plausible, Remapping.DoAll, OnMessage, Upstream.OnData, FailStream, Kept, Owes, Unfinished, Responses.Told, Honest,
      Leads;
    var u0 := NewUp(maxPending, window, streamWindow);
    var u1 := AskedOwes(maxPending, window, streamWindow);
    var s := BodyArrives(1, [octet], false);
    StrayOwes(u1, s);
    var u2 := Advance(u1, s).value;
    StrayIsHeard(u2, 1);
    var t := Tally(0, Returns(map[], window));
    var u3 := Advance(u2, OversizedArrives(1)).value;
    LeadsNowhere(u3, t);
    SameTally(t, u2);
    LeadsOn(u2, t, OversizedArrives(1), [], u3);
    LeadsOn(u1, t, s, [OversizedArrives(1)] + [], u3);
    SameTally(t, u0);
    LeadsOn(u0, t, Ask(0), [s] + ([OversizedArrives(1)] + []), u3);
    assert [Ask(0)] + ([s] + ([OversizedArrives(1)] + [])) == [Ask(0), s, OversizedArrives(1)];
    LeadsShow(u0, t, [Ask(0), s, OversizedArrives(1)], u3);
  }

  lemma LeadsShow(u: Up, t: Tally, steps: seq<UpStep>, v: Up)
    requires Leads(u, t, steps, v)
    ensures Plausible(u, steps) && Remapping.DoAll(u, t, steps).Ok? && Remapping.DoAll(u, t, steps).value.up == v
  {
  }
}
