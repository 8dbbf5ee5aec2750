/** What every handler of the backend connection does to the requests that wait, to
    the places they wait for and to the wire: nobody joins those who wait or passes
    another, a place that comes free is given away, and frames are only added, each
    but a HEADERS short enough for the backend. */
module UpstreamSteps {
  import opened Octets
  import opened Frame
  import opened Flow
  import opened HpackCodec
  import opened Streams
  import CL = ClientLeg
  import opened Scheduler
  import opened Upstream
  import opened Remapping

  // -------------------------------------------------------------------------
  // Some of a list, in its order.
  // -------------------------------------------------------------------------

  /** `a` is `b` with some left out. */
  predicate Within(a: seq<RequestId>, b: seq<RequestId>)
    decreases |b|
  {
    a == [] ||
    (b != [] &&
     (|| Within(a, b[..|b| - 1])
      || (a[|a| - 1] == b[|b| - 1] && Within(a[..|a| - 1], b[..|b| - 1]))))
  }

  lemma {:induction false} WithinSelf(a: seq<RequestId>)
    ensures Within(a, a)
    decreases |a|
  {
    if a != [] {
      WithinSelf(a[..|a| - 1]);
    }
  }

  lemma {:induction false} WithinThen(a: seq<RequestId>, b: seq<RequestId>, c: seq<RequestId>)
    requires Within(a, b) && Within(b, c)
    ensures Within(a, c)
    decreases |c|
  {
    if a != [] {
      var b1, c1 := b[..|b| - 1], c[..|c| - 1];
      if Within(b, c1) {
        WithinThen(a, b, c1);
      } else if Within(a, b1) {
        WithinThen(a, b1, c1);
      } else {
        WithinThen(a[..|a| - 1], b1, c1);
      }
    }
  }

  lemma WithinSnoc(a: seq<RequestId>, b: seq<RequestId>, x: RequestId)
    requires Within(a, b)
    ensures Within(a, b + [x]) && Within(a + [x], b + [x])
  {
    assert (b + [x])[..|b|] == b && (a + [x])[..|a|] == a;
  }

  lemma {:induction false} WithinConcat(a: seq<RequestId>, b: seq<RequestId>, c: seq<RequestId>, d: seq<RequestId>)
    requires Within(a, b) && Within(c, d)
    ensures Within(a + c, b + d)
    decreases |d|
  {
    if d == [] {
      assert a + c == a && b + d == b;
    } else {
      var d1, x := d[..|d| - 1], d[|d| - 1];
      assert b + d == (b + d1) + [x];
      if Within(c, d1) {
        WithinConcat(a, b, c, d1);
        WithinSnoc(a + c, b + d1, x);
      } else {
        WithinConcat(a, b, c[..|c| - 1], d1);
        WithinSnoc(a + c[..|c| - 1], b + d1, x);
        assert a + c == (a + c[..|c| - 1]) + [x];
      }
    }
  }

  lemma {:induction false} WithinMember(a: seq<RequestId>, b: seq<RequestId>, x: RequestId)
    requires Within(a, b) && x in a
    ensures x in b
    decreases |b|
  {
    var b1 := b[..|b| - 1];
    if Within(a, b1) {
      WithinMember(a, b1, x);
    } else if x != a[|a| - 1] {
      WithinMember(a[..|a| - 1], b1, x);
    }
  }

  // -------------------------------------------------------------------------
  // Who has been served and who waits.
  // -------------------------------------------------------------------------

  function OpenedRequests(acts: seq<Act>): seq<RequestId>
    decreases |acts|
  {
    if acts == [] then []
    else
      var a, past := acts[|acts| - 1], OpenedRequests(acts[..|acts| - 1]);
      if a.Opened? then past + [a.request] else past
  }

  function Requests(waiting: seq<Pending>): seq<RequestId> {
    if waiting == [] then [] else [waiting[0].request] + Requests(waiting[1..])
  }

  /** Requests begun, in order, and then those that wait. */
  function Lineup(u: Up): seq<RequestId> {
    OpenedRequests(u.acts) + Requests(u.pending)
  }

  lemma OpenedRequestsSnoc(acts: seq<Act>, a: Act)
    ensures OpenedRequests(acts + [a]) == if a.Opened? then OpenedRequests(acts) + [a.request] else OpenedRequests(acts)
  {
    assert (acts + [a])[..|acts|] == acts;
  }

  lemma {:induction false} RequestsSnoc(waiting: seq<Pending>, p: Pending)
    ensures Requests(waiting + [p]) == Requests(waiting) + [p.request]
  {
    if waiting == [] {
      assert [] + [p] == [p] && [p][1..] == [];
    } else {
      assert (waiting + [p])[1..] == waiting[1..] + [p];
      RequestsSnoc(waiting[1..], p);
    }
  }

  lemma {:induction false} SameRequests(a: seq<Pending>, b: seq<Pending>)
    requires |a| == |b| && forall i :: 0 <= i < |a| ==> a[i].request == b[i].request
    ensures Requests(a) == Requests(b)
  {
    if a != [] {
      SameRequests(a[1..], b[1..]);
    }
  }

  lemma {:induction false} WithoutIsWithin(waiting: seq<Pending>, request: RequestId)
    ensures Within(Requests(WithoutRequest(waiting, request)), Requests(waiting))
  {
    if waiting != [] {
      var p, rest := waiting[0], WithoutRequest(waiting[1..], request);
      WithoutIsWithin(waiting[1..], request);
      WithinSelf([p.request]);
      WithinConcat([p.request], [p.request], Requests(rest), Requests(waiting[1..]));
      WithinConcat([], [p.request], Requests(rest), Requests(waiting[1..]));
      assert ([p] + rest)[1..] == rest && [] + rest == rest && [] + Requests(rest) == Requests(rest);
    }
  }

  /** Nobody waits while there is room. */
  predicate Prompt(u: Up) {
    u.pending == [] || !CanOpenLocal(u.streams)
  }

  /** The peer has yet to end every live stream. */
  ghost predicate Answering(u: Up) {
    forall id :: id in u.streams.live ==> u.streams.live[id].state.PeerCanSend()
  }

  ghost predicate AnsweringBut(u: Up, x: StreamId) {
    forall id :: id in u.streams.live && id != x ==> u.streams.live[id].state.PeerCanSend()
  }

  ghost predicate Steady(u: Up) {
    Prompt(u) && Answering(u)
  }

  // -------------------------------------------------------------------------
  // The wire.
  // -------------------------------------------------------------------------

  /** Frames are only added, and all of them but HEADERS fit the limit in force. */
  ghost predicate Extends(u: Up, v: Up) {
    v.peer == u.peer && Lengthens(u.written, v.written, u.peer.maxFrame)
  }

  lemma ExtendsThen(u: Up, v: Up, w: Up)
    requires Extends(u, v) && Extends(v, w)
    ensures Extends(u, w)
  {
    hide Lengthens;
    LengthensThen(u.written, v.written, w.written, u.peer.maxFrame);
  }

  // -------------------------------------------------------------------------
  // What a handler keeps.
  // -------------------------------------------------------------------------

  ghost predicate Keeps(u: Up, v: Up) {
    Within(Lineup(v), Lineup(u)) && Extends(u, v) && (Steady(u) ==> Steady(v))
  }

  /** Before a stream is let go, its place may be free already. */
  ghost predicate Loosens(u: Up, v: Up, x: StreamId) {
    Within(Lineup(v), Lineup(u)) && Extends(u, v) && (Steady(u) ==> AnsweringBut(v, x))
  }

  lemma KeepsThen(u: Up, v: Up, w: Up)
    requires Keeps(u, v) && Keeps(v, w)
    ensures Keeps(u, w)
  {
    hide Extends, Steady, Lineup;
    WithinThen(Lineup(w), Lineup(v), Lineup(u));
    ExtendsThen(u, v, w);
  }

  lemma KeepsIsLoose(u: Up, v: Up, x: StreamId)
    requires Keeps(u, v)
    ensures Loosens(u, v, x)
  {
    hide Extends, Lineup;
  }

  lemma KeepsSelf(u: Up)
    ensures Keeps(u, u)
  {
    hide Lineup;
    WithinSelf(Lineup(u));
  }

  /** One frame more at most, and a short one. */
  predicate WritesLittle(u: Up, v: Up) {
    && v.peer == u.peer
    && (v.written == u.written ||
        (|v.written| == |u.written| + 1 && v.written[..|u.written|] == u.written &&
         (|| v.written[|u.written|].Headers?
          || FitsIn(v.written[|u.written|], u.peer.maxFrame) || FitsIn(v.written[|u.written|], 8))))
  }

  lemma LittleExtends(u: Up, v: Up)
    requires WritesLittle(u, v)
    ensures Extends(u, v)
  {
  }

  /** The same wait for the same places. */
  ghost predicate Alike(u: Up, v: Up) {
    && Lineup(v) == Lineup(u) && (v.pending == [] <==> u.pending == [])
    && v.streams.live.Keys == u.streams.live.Keys
    && v.streams.maxConcurrent == u.streams.maxConcurrent && v.streams.highestLocal == u.streams.highestLocal
    && (forall id :: id in u.streams.live && u.streams.live[id].state.PeerCanSend() ==>
          v.streams.live[id].state.PeerCanSend())
  }

  lemma AlikeKeeps(u: Up, v: Up)
    requires Alike(u, v) && WritesLittle(u, v)
    ensures Keeps(u, v)
  {
    hide Lineup, StreamState.PeerCanSend, WritesLittle, Extends;
    WithinSelf(Lineup(u));
    LittleExtends(u, v);
    assert |v.streams.live| == |v.streams.live.Keys| == |u.streams.live.Keys| == |u.streams.live|;
  }

  lemma AlikeLoosens(u: Up, v: Up, w: Up, x: StreamId)
    requires Loosens(u, v, x) && Alike(v, w) && WritesLittle(v, w)
    ensures Loosens(u, w, x)
  {
    hide Lineup, StreamState.PeerCanSend, WritesLittle, Extends, Steady;
    LittleExtends(v, w);
    ExtendsThen(u, v, w);
  }

  /** An act on record that opens nothing. */
  lemma ActAlike(u: Up, v: Up, a: Act)
    requires !a.Opened? && v.acts == u.acts + [a] && v.pending == u.pending && v.streams == u.streams
    ensures Alike(u, v)
  {
    OpenedRequestsSnoc(u.acts, a);
  }

  /** A stream out of the table and perhaps a short frame. */
  lemma RetiredLoosens(u: Up, v: Up, w: Up, x: StreamId)
    requires Loosens(u, v, x) && WritesLittle(v, w) && w.acts == v.acts && w.pending == v.pending
    requires forall id :: id in w.streams.live && id != x ==>
               id in v.streams.live && w.streams.live[id].state == v.streams.live[id].state
    ensures Loosens(u, w, x)
  {
    hide StreamState.PeerCanSend, WritesLittle, Extends, Steady, Within;
    LittleExtends(v, w);
    ExtendsThen(u, v, w);
    assert Lineup(w) == Lineup(v);
  }

  // -------------------------------------------------------------------------
  // Opening and letting go.
  // -------------------------------------------------------------------------

  lemma OpenedTable(t: Table, id: StreamId, endStream: bool)
    requires t.OpenLocal(id).1.Ok?
    ensures var sent := t.OpenLocal(id).0.Apply(id, SendHeaders(endStream)).0;
            forall j :: j in sent.live ==>
              if j == id then sent.live[j].state.PeerCanSend() else j in t.live && sent.live[j] == t.live[j]
  {
  }

  /** A request joins those begun, or is turned away. */
  lemma OpenSteps(u: Up, request: RequestId, client: Client, head: seq<Header>, endStream: bool)
    ensures var v := OpenStream(u, request, client, head, endStream);
            && v.pending == u.pending && Extends(u, v) && (Answering(u) ==> Answering(v))
            && (|| OpenedRequests(v.acts) == OpenedRequests(u.acts)
                || OpenedRequests(v.acts) == OpenedRequests(u.acts) + [request])
  {
    hide EncoderState.Block, EncoderState.After, Table.OpenLocal, Table.Apply, StreamState.PeerCanSend, OpenedRequests, Extends;
    var id := StreamIdFrom(u.nextId);
    var v := OpenStream(u, request, client, head, endStream);
    OpenedRequestsSnoc(u.acts, Act.Opened(id, request, client));
    OpenedRequestsSnoc(u.acts, TurnedAway(client, CL.ResetStream(client.id, RefusedStream)));
    LittleExtends(u, v);
    if u.streams.OpenLocal(id).1.Ok? {
      OpenedTable(u.streams, id, endStream);
    } else {
      assert v.streams == u.streams;
    }
  }

  lemma AttachAlike(u: Up, p: Pending)
    ensures Alike(u, Attach(u, p)) && WritesLittle(u, Attach(u, p))
  {
    hide Chunks, AnyEnd, StreamState.PeerCanSend, Lineup;
    assert Lineup(Attach(u, p)) == Lineup(u) by {
      AttachGrows(u, p);
      SameLineup(u, Attach(u, p));
    }
  }

  lemma SameLineup(u: Up, v: Up)
    requires v.acts == u.acts && v.pending == u.pending
    ensures Lineup(v) == Lineup(u)
  {
  }

  /** The first of those waiting is begun, or is turned away, or had been given up. */
  lemma FirstSteps(u: Up)
    requires u.pending != [] && CanOpenLocal(u.streams)
    ensures var p := u.pending[0];
            var v := SendRequest(u.(pending := u.pending[1..]), p.request, p.client, p.head, p.endStream);
            && v.pending == u.pending[1..] && Within(Lineup(v), Lineup(u)) && Extends(u, v)
            && (Answering(u) ==> Answering(v))
  {
    hide OpenStream, CanOpenLocal, StreamState.PeerCanSend, OpenedRequests, Within, Extends;
    var p := u.pending[0];
    var popped := u.(pending := u.pending[1..]);
    var v := SendRequest(popped, p.request, p.client, p.head, p.endStream);
    OpenSteps(popped, p.request, p.client, p.head, p.endStream);
    OpenedRequestsSnoc(u.acts, TurnedAway(p.client, CL.ResetStream(p.client.id, RefusedStream)));
    LittleExtends(u, popped);
    if p.request in u.cancelled || u.draining.Some? {
      LittleExtends(u, v);
    } else {
      ExtendsThen(u, popped, v);
    }
    var before, rest := OpenedRequests(u.acts), Requests(u.pending[1..]);
    assert Lineup(u) == (before + [p.request]) + rest;
    WithinSelf(before);
    WithinSnoc(before, before, p.request);
    WithinSelf(rest);
    WithinConcat(before, before + [p.request], rest, rest);
    WithinConcat(before + [p.request], before + [p.request], rest, rest);
  }

  /** Places are given away until none is left or nobody waits. */
  lemma {:induction false} DrainSteps(u: Up)
    ensures var v := DrainPending(u);
            Within(Lineup(v), Lineup(u)) && Extends(u, v) && Prompt(v) && (Answering(u) ==> Answering(v))
    decreases |u.pending|
  {
    hide SendRequest, Attach, CanOpenLocal, Lineup, Extends, Within, StreamState.PeerCanSend;
    if u.pending == [] || !CanOpenLocal(u.streams) {
      WithinSelf(Lineup(u));
      LittleExtends(u, u);
    } else {
      var p := u.pending[0];
      var sent := SendRequest(u.(pending := u.pending[1..]), p.request, p.client, p.head, p.endStream);
      var full := Attach(sent, p);
      FirstSteps(u);
      AttachAlike(sent, p);
      AttachGrows(sent, p);
      LittleExtends(sent, full);
      DrainSteps(full);
      WithinThen(Lineup(DrainPending(full)), Lineup(full), Lineup(u));
      ExtendsThen(u, sent, full);
      ExtendsThen(u, full, DrainPending(full));
    }
  }

  /** Whoever is let go leaves a place, and whoever waits has it. */
  lemma ForgetKeeps(u: Up, w: Up, x: StreamId)
    requires Loosens(u, w, x)
    ensures Keeps(u, Forget(w, x))
  {
    hide Lineup, Loosens, DrainPending, StreamState.PeerCanSend, Within, Extends, RetireStream, ReleaseConn;
    var retired := RetireStream(w, x);
    RetireLoosens(u, w, x);
    if x in w.routes {
      RetireShape(w, x);
      DropLoosens(u, retired, x, w.routes[x].pendingConnRelease);
      var dropped := DropRoute(retired, x);
      var n := w.routes[x].pendingConnRelease;
      DrainedKeeps(u, if n > 0 then ReleaseConn(dropped, n) else dropped, x);
    } else {
      DrainedKeeps(u, retired, x);
    }
  }

  lemma RetireLoosens(u: Up, w: Up, x: StreamId)
    requires Loosens(u, w, x)
    ensures Loosens(u, RetireStream(w, x), x) && x !in RetireStream(w, x).streams.live
  {
    hide Loosens;
    RetiredLoosens(u, w, RetireStream(w, x), x);
  }

  lemma DropLoosens(u: Up, w: Up, x: StreamId, n: U32)
    requires Loosens(u, w, x) && x in w.routes && x !in w.streams.live
    ensures var v := DropRoute(w, x);
            var gone := if n > 0 then ReleaseConn(v, n) else v;
            Loosens(u, gone, x) && x !in gone.streams.live
  {
    hide Loosens, Lineup, Receive.Release, StreamState.PeerCanSend;
    var v := DropRoute(w, x);
    ActAlike(w, v, Forgot(x));
    AlikeLoosens(u, w, v, x);
    if n > 0 {
      SameLineup(v, ReleaseConn(v, n));
      AlikeLoosens(u, v, ReleaseConn(v, n), x);
    }
  }

  lemma DrainedKeeps(u: Up, w: Up, x: StreamId)
    requires Loosens(u, w, x) && x !in w.streams.live
    ensures Keeps(u, DrainPending(w))
  {
    hide Lineup, DrainPending, StreamState.PeerCanSend, Extends;
    DrainSteps(w);
    WithinThen(Lineup(DrainPending(w)), Lineup(w), Lineup(u));
    ExtendsThen(u, w, DrainPending(w));
  }

  lemma TellLoosens(u: Up, w: Up, x: StreamId, id: StreamId, e: CL.ServiceEvent)
    requires id in w.routes
    ensures Loosens(u, w, x) ==> Loosens(u, Tell(w, id, e), x)
    ensures Keeps(w, Tell(w, id, e))
  {
    hide Loosens, Keeps;
    ActAlike(w, Tell(w, id, e), Told(id, w.routes[id].request, w.routes[id].client, e));
    AlikeKeeps(w, Tell(w, id, e));
    if Loosens(u, w, x) {
      AlikeLoosens(u, w, Tell(w, id, e), x);
    }
  }

  lemma WriteRstLoosens(u: Up, w: Up, x: StreamId, code: ErrorCode)
    requires Loosens(u, w, x)
    ensures Loosens(u, WriteRst(w, x, code), x)
  {
    hide Loosens, ErrorNumber;
    RetiredLoosens(u, w, WriteRst(w, x, code), x);
  }

  lemma FailStreamKeeps(u: Up, w: Up, x: StreamId, status: seq<Header>)
    requires Loosens(u, w, x)
    ensures Keeps(u, FailStream(w, x, status))
  {
    hide Loosens, Keeps, Forget, WriteRst;
    var told := w;
    if x in w.routes {
      var client := w.routes[x].client.id;
      var event := if w.routes[x].headSent then CL.ResetStream(client, InternalError) else CL.Head(client, status, true);
      told := Tell(w, x, event);
      TellLoosens(u, w, x, x, event);
    }
    WriteRstLoosens(u, told, x, ErrorCode.Cancel);
    ForgetKeeps(u, told, x);
    ForgetKeeps(u, WriteRst(told, x, ErrorCode.Cancel), x);
  }

  lemma LooseFromHere(u: Up, x: StreamId)
    ensures Loosens(u, u, x)
  {
    hide Keeps, Loosens;
    KeepsSelf(u);
    KeepsIsLoose(u, u, x);
  }

  /** An event that is not the peer's last leaves its stream answering. */
  lemma MovedAlike(u: Up, id: StreamId, event: StreamEvent)
    requires Answering(u) && !event.IsReset() && !(event.Incoming() && event.Ends())
    requires u.streams.Apply(id, event).1.Ok?
    ensures Alike(u, Upstream.ApplyEvent(u, id, event).value)
  {
    hide FailStream, Lineup, CL.Without;
    SameLineup(u, Upstream.ApplyEvent(u, id, event).value);
  }

  lemma ApplyKeeps(u: Up, id: StreamId, event: StreamEvent)
    requires !event.IsReset() && !(event.Incoming() && event.Ends())
    ensures var r := Upstream.ApplyEvent(u, id, event); r.Ok? ==> Keeps(u, r.value)
  {
    hide FailStream, Transition, Lineup, Within, StreamState.PeerCanSend;
    var r := Upstream.ApplyEvent(u, id, event);
    if r.Ok? {
      if u.streams.Apply(id, event).1.Ok? {
        SameLineup(u, r.value);
        WithinSelf(Lineup(u));
        LittleExtends(u, r.value);
        if Steady(u) {
          MovedAlike(u, id, event);
          AlikeKeeps(u, r.value);
        }
      } else {
        LooseFromHere(u, id);
        FailStreamKeeps(u, u, id, BAD_GATEWAY);
      }
    }
  }

  lemma ApplyLoosens(u: Up, w: Up, id: StreamId, event: StreamEvent)
    requires Loosens(u, w, id)
    ensures var r := Upstream.ApplyEvent(w, id, event); r.Ok? ==> Loosens(u, r.value, id)
  {
    hide FailStream, Transition, Loosens, Keeps;
    var r := Upstream.ApplyEvent(w, id, event);
    if r.Ok? {
      if w.streams.Apply(id, event).1.Ok? {
        RetiredLoosens(u, w, r.value, id);
      } else {
        FailStreamKeeps(u, w, id, BAD_GATEWAY);
        KeepsIsLoose(u, r.value, id);
      }
    }
  }

  // -------------------------------------------------------------------------
  // What the backend says.
  // -------------------------------------------------------------------------

  /** An event of the peer's, and the stream let go if it was the last. */
  lemma PeerEventKeeps(u: Up, told: Up, id: StreamId, event: StreamEvent)
    requires Keeps(u, told) && event.Incoming() && !event.IsReset()
    ensures var r := Upstream.ApplyEvent(told, id, event);
            r.Ok? ==> Keeps(u, if event.Ends() then Forget(r.value, id) else r.value)
  {
    hide Upstream.ApplyEvent, Forget, Keeps, Loosens;
    var r := Upstream.ApplyEvent(told, id, event);
    if r.Ok? {
      if event.Ends() {
        KeepsIsLoose(u, told, id);
        ApplyLoosens(u, told, id, event);
        ForgetKeeps(u, r.value, id);
      } else {
        ApplyKeeps(told, id, event);
        KeepsThen(u, told, r.value);
      }
    }
  }

  lemma RoutesKeep(u: Up, v: Up)
    requires v == u.(routes := v.routes)
    ensures Keeps(u, v)
  {
    hide Lineup, StreamState.PeerCanSend;
    SameLineup(u, v);
    AlikeKeeps(u, v);
  }

  lemma OnResponseKeeps(u: Up, id: StreamId, fields: seq<Header>, endStream: bool, check: HeadCheck)
    ensures var r := OnResponse(u, id, fields, endStream, check); r.Ok? ==> Keeps(u, r.value)
  {
    hide Upstream.ApplyEvent, FailStream, Forget, CL.ValidTrailers, Keeps, Loosens;
    KeepsSelf(u);
    if id in u.routes {
      var client := u.routes[id].client.id;
      if u.routes[id].headSent {
        TellLoosens(u, u, id, id, CL.Trailers(client, fields));
        var told := if CL.ValidTrailers(fields) then Tell(u, id, CL.Trailers(client, fields)) else u;
        PeerEventKeeps(u, told, id, RecvHeaders(endStream));
      } else {
        LooseFromHere(u, id);
        FailStreamKeeps(u, u, id, BAD_GATEWAY);
        PeerEventKeeps(u, u, id, RecvHeaders(false));
        var marked := u.(routes := u.routes[id := u.routes[id].(headSent := true)]);
        var told := Tell(marked, id, CL.Head(client, fields, endStream));
        RoutesKeep(u, marked);
        TellLoosens(u, marked, id, id, CL.Head(client, fields, endStream));
        KeepsThen(u, marked, told);
        PeerEventKeeps(u, told, id, RecvHeaders(endStream));
      }
    }
  }

  lemma SendOnKeeps(u: Up, id: StreamId, data: seq<Octet>, endStream: bool)
    requires |data| < U32_LIMIT
    ensures var r := SendOn(u, id, data, endStream); r.Ok? ==> Keeps(u, r.value)
  {
    hide Upstream.ApplyEvent, Forget, Keeps, Loosens;
    KeepsSelf(u);
    if id in u.routes {
      var held := SaturatingAdd(u.routes[id].pendingConnRelease, |data|);
      var owed := u.(routes := u.routes[id := u.routes[id].(pendingConnRelease := held)]);
      var event := CL.BodyData(u.routes[id].client.id, data, endStream);
      RoutesKeep(u, owed);
      TellLoosens(u, owed, id, id, event);
      KeepsThen(u, owed, Tell(owed, id, event));
      PeerEventKeeps(u, Tell(owed, id, event), id, RecvData(endStream));
    } else {
      PeerEventKeeps(u, u, id, RecvData(endStream));
    }
  }

  /** Windows and what is announced of them. */
  lemma RecvKeeps(u: Up, window: Receive, n: U32)
    ensures var v := u.(connRecv := window); Keeps(u, v) && Keeps(v, ReleaseConn(v, n))
  {
    hide Lineup, Receive.Release, StreamState.PeerCanSend, Keeps;
    var v := u.(connRecv := window);
    SameLineup(u, v);
    AlikeKeeps(u, v);
    SameLineup(v, ReleaseConn(v, n));
    AlikeKeeps(v, ReleaseConn(v, n));
  }

  lemma PutKeeps(u: Up, id: StreamId, s: Stream)
    requires id in u.streams.live && s.state == u.streams.live[id].state
    ensures Keeps(u, Put(u, id, s)) && Keeps(u, EnqueueReady(Put(u, id, s), id))
  {
    hide Lineup, StreamState.PeerCanSend, Keeps;
    SameLineup(u, Put(u, id, s));
    AlikeKeeps(u, Put(u, id, s));
    SameLineup(u, EnqueueReady(Put(u, id, s), id));
    AlikeKeeps(u, EnqueueReady(Put(u, id, s), id));
  }

  lemma OnDataKeeps(u: Up, id: StreamId, data: seq<Octet>, endStream: bool)
    requires |data| < U32_LIMIT
    ensures var r := Upstream.OnData(u, id, data, endStream); r.Ok? ==> Keeps(u, r.value)
  {
    hide SendOn, FailStream, WriteRst, ReleaseConn, Receive.Record, Keeps, Loosens;
    var recorded := u.connRecv.Record(|data|);
    if recorded.Some? {
      var u1 := u.(connRecv := recorded.value);
      RecvKeeps(u, recorded.value, |data|);
      match u1.streams.Find(id)
      case NeverOpened =>
      case WasClosed => KeepsThen(u, u1, ReleaseConn(u1, |data|));
      case Live(s) =>
        var window := s.recvWindow.Record(|data|);
        if window.None? {
          KeepsIsLoose(u, u1, id);
          WriteRstLoosens(u, u1, id, FlowControlError);
          FailStreamKeeps(u, WriteRst(u1, id, FlowControlError), id, BAD_GATEWAY);
        } else {
          var u2 := Put(u1, id, s.(recvWindow := window.value));
          PutKeeps(u1, id, s.(recvWindow := window.value));
          SendOnKeeps(u2, id, data, endStream);
          KeepsThen(u, u1, u2);
          if SendOn(u2, id, data, endStream).Ok? {
            KeepsThen(u, u2, SendOn(u2, id, data, endStream).value);
          }
        }
    }
  }

  lemma OnRstKeeps(u: Up, id: StreamId, code: ErrorCode)
    ensures Keeps(u, Upstream.OnRst(u, id, code))
  {
    hide Forget, Keeps, Loosens;
    LooseFromHere(u, id);
    if id in u.routes {
      TellLoosens(u, u, id, id, CL.ResetStream(u.routes[id].client.id, code));
      ForgetKeeps(u, Tell(u, id, CL.ResetStream(u.routes[id].client.id, code)), id);
    } else {
      ForgetKeeps(u, u, id);
    }
  }

  lemma {:induction false} RefuseAllKeeps(u: Up, waiting: seq<Pending>)
    ensures Keeps(u, RefuseAll(u, waiting))
    decreases |waiting|
  {
    hide Keeps;
    if waiting == [] {
      KeepsSelf(u);
    } else {
      var event := CL.ResetStream(waiting[0].client.id, RefusedStream);
      var v := Refuse(u, waiting[0].client, event);
      ActAlike(u, v, TurnedAway(waiting[0].client, event));
      AlikeKeeps(u, v);
      RefuseAllKeeps(v, waiting[1..]);
      KeepsThen(u, v, RefuseAll(v, waiting[1..]));
    }
  }

  lemma {:induction false} AbandonKeeps(u: Up, ids: seq<StreamId>)
    ensures Keeps(u, Abandon(u, ids))
    decreases |ids|
  {
    hide Upstream.OnRst, Keeps;
    if ids == [] {
      KeepsSelf(u);
    } else {
      var v := Upstream.OnRst(u, ids[0], RefusedStream);
      OnRstKeeps(u, ids[0], RefusedStream);
      AbandonKeeps(v, ids[1..]);
      KeepsThen(u, v, Abandon(v, ids[1..]));
    }
  }

  /** Fewer waiting, and nothing else of note. */
  lemma ShorterKeeps(u: Up, v: Up)
    requires v == u.(pending := v.pending, cancelled := v.cancelled, draining := v.draining)
    requires Within(Requests(v.pending), Requests(u.pending)) && |v.pending| <= |u.pending|
    ensures Keeps(u, v)
  {
    hide Within, StreamState.PeerCanSend, OpenedRequests, Requests;
    WithinSelf(OpenedRequests(u.acts));
    WithinConcat(OpenedRequests(u.acts), OpenedRequests(u.acts), Requests(v.pending), Requests(u.pending));
    LittleExtends(u, v);
  }

  lemma OnGoAwayKeeps(u: Up, last: StreamId, above: seq<StreamId>)
    requires Past(u.routes, last, above)
    ensures Keeps(u, OnGoAway(u, last, above))
  {
    hide RefuseAll, Abandon, Keeps;
    var cleared := u.(draining := Some(last), pending := []);
    ShorterKeeps(u, cleared);
    RefuseAllKeeps(cleared, u.pending);
    var told := RefuseAll(cleared, u.pending);
    KeepsThen(u, cleared, told);
    AbandonKeeps(told, above);
    KeepsThen(u, told, Abandon(told, above));
  }

  // -------------------------------------------------------------------------
  // What clients ask for, and request bodies.
  // -------------------------------------------------------------------------

  lemma {:induction false} WithoutIsShorter(waiting: seq<Pending>, request: RequestId)
    ensures |WithoutRequest(waiting, request)| <= |waiting|
  {
    if waiting != [] {
      WithoutIsShorter(waiting[1..], request);
    }
  }

  lemma ReleaseKeeps(u: Up, id: StreamId, n: U32)
    ensures Keeps(u, Release(u, id, n))
  {
    hide Keeps, ReleaseConn, Receive.Release;
    KeepsSelf(u);
    if n != 0 {
      var owed := if id in u.routes then
                    u.(routes := u.routes[id := u.routes[id].(pendingConnRelease :=
                         if n > u.routes[id].pendingConnRelease then 0 else u.routes[id].pendingConnRelease - n)])
                  else u;
      RoutesKeep(u, owed);
      var own := owed;
      if id in owed.streams.live {
        var (window, update) := owed.streams.live[id].recvWindow.Release(n);
        var s := owed.streams.live[id].(recvWindow := window);
        own := if update.None? then Put(owed, id, s) else QueueFrame(Put(owed, id, s), WindowUpdate(id, update.value));
        OwnKeeps(owed, id, s, update);
      } else {
        KeepsSelf(own);
      }
      KeepsThen(u, owed, own);
      RecvKeeps(own, own.connRecv, n);
      assert own.(connRecv := own.connRecv) == own;
      KeepsThen(u, own, ReleaseConn(own, n));
    }
  }

  lemma OwnKeeps(u: Up, id: StreamId, s: Stream, update: Option<U32>)
    requires id in u.streams.live && s.state == u.streams.live[id].state
    ensures Keeps(u, if update.None? then Put(u, id, s) else QueueFrame(Put(u, id, s), WindowUpdate(id, update.value)))
  {
    hide Keeps, Lineup, StreamState.PeerCanSend;
    PutKeeps(u, id, s);
    if update.Some? {
      var v := QueueFrame(Put(u, id, s), WindowUpdate(id, update.value));
      SameLineup(u, v);
      AlikeKeeps(u, v);
    }
  }

  /** Every message but a request leaves those waiting as they were, or fewer. */
  lemma OtherMessageKeeps(u: Up, m: Message)
    requires !m.Request?
    ensures Keeps(u, OnMessage(u, m))
  {
    hide Forget, Release, EnqueueReady, AppendBody, AppendTrailers, WithoutRequest, WriteRst, Keeps, Loosens;
    KeepsSelf(u);
    match m
    case RequestBody(request, data, endStream) =>
      if request !in u.requests {
        AppendBodyRequests(u.pending, request, data, endStream);
        EditKeeps(u, AppendBody(u.pending, request, data, endStream));
      } else if u.requests[request] in u.streams.live {
        var s := u.streams.live[u.requests[request]];
        PutKeeps(u, u.requests[request], s.(sendQueue := if data == [] then s.sendQueue else s.sendQueue + [data],
                                            sendEndStream := s.sendEndStream || endStream));
      }
    case RequestEnd(request, fields) =>
      if request !in u.requests {
        AppendTrailersRequests(u.pending, request, fields);
        EditKeeps(u, AppendTrailers(u.pending, request, fields));
      } else if u.requests[request] in u.streams.live {
        var s := u.streams.live[u.requests[request]];
        PutKeeps(u, u.requests[request], s.(pendingTrailers := Some(fields), sendEndStream := true));
      }
    case Delivered(request, n) =>
      if request in u.requests {
        ReleaseKeeps(u, u.requests[request], n);
      }
    case Cancel(request, code) =>
      if request !in u.requests {
        WithoutIsWithin(u.pending, request);
        WithoutIsShorter(u.pending, request);
        ShorterKeeps(u, u.(pending := WithoutRequest(u.pending, request), cancelled := u.cancelled + {request}));
      } else {
        var id := u.requests[request];
        LooseFromHere(u, id);
        ForgetKeeps(u, u, id);
        WriteRstLoosens(u, u, id, code);
        ForgetKeeps(u, WriteRst(u, id, code), id);
      }
  }

  lemma EditKeeps(u: Up, waiting: seq<Pending>)
    requires |waiting| == |u.pending| && forall i :: 0 <= i < |waiting| ==> waiting[i].request == u.pending[i].request
    ensures Keeps(u, u.(pending := waiting))
  {
    hide Keeps, Within;
    SameRequests(waiting, u.pending);
    WithinSelf(Requests(waiting));
    ShorterKeeps(u, u.(pending := waiting));
  }

  lemma UpSendBodyKeeps(u: Up, id: StreamId, t: Taken)
    requires id in u.streams.live && |t.chunk| < U32_LIMIT && |t.chunk| <= u.peer.maxFrame
    requires t.rest.state == u.streams.live[id].state
    ensures var r := Upstream.SendBody(u, id, t); r.Ok? ==> Keeps(u, r.value)
  {
    hide Upstream.ApplyEvent, Keeps;
    var own, all := t.rest.sendWindow.Consume(|t.chunk|), u.connSend.Consume(|t.chunk|);
    if t.chunk == [] || (own.Some? && all.Some?) {
      var spent := if t.chunk == [] then t.rest else t.rest.(sendWindow := own.value);
      var u2 := Put(u, id, spent).(connSend := if t.chunk == [] then u.connSend else all.value);
      var queued := QueueFrame(u2, Data(id, t.chunk, t.endStream));
      SpentKeeps(u, id, spent, u2.connSend, t);
      ApplyKeeps(queued, id, SendData(t.endStream));
      var r := Upstream.ApplyEvent(queued, id, SendData(t.endStream));
      if r.Ok? {
        KeepsThen(u, queued, r.value);
      }
    }
  }

  lemma SpentKeeps(u: Up, id: StreamId, spent: Stream, window: Window, t: Taken)
    requires id in u.streams.live && spent.state == u.streams.live[id].state && |t.chunk| <= u.peer.maxFrame
    ensures var v := Put(u, id, spent).(connSend := window);
            Keeps(u, v) && Keeps(u, QueueFrame(v, Data(id, t.chunk, t.endStream)))
  {
    hide Keeps, Lineup, StreamState.PeerCanSend;
    var v := Put(u, id, spent).(connSend := window);
    SameLineup(u, v);
    AlikeKeeps(u, v);
    var queued := QueueFrame(v, Data(id, t.chunk, t.endStream));
    SameLineup(u, queued);
    AlikeKeeps(u, queued);
  }

  lemma BudgetFits(u: Up, s: Stream)
    ensures Upstream.Budget(u, s) <= u.peer.maxFrame && Upstream.Budget(u, s) < U32_LIMIT
  {
  }

  lemma VisitKeeps(u: Up, id: StreamId)
    ensures var r := Upstream.VisitReady(u, id); r.Ok? ==> Keeps(u, r.value)
  {
    hide Upstream.SendBody, Upstream.ApplyEvent, Upstream.Budget, Take, Stream.PendingSend, EncoderState.Block, EncoderState.After, Keeps;
    KeepsSelf(u);
    if id in u.streams.live {
      var s := u.streams.live[id];
      var budget := Upstream.Budget(u, s);
      var t := Take(s, budget);
      TakeKeepsState(s, budget);
      TakeWithin(s, budget);
      BudgetFits(u, s);
      PutKeeps(u, id, s.(queued := false));
      PutKeeps(u, id, t.rest);
      UpSendBodyKeeps(u, id, t);
      var sent := Upstream.SendBody(u, id, t);
      if sent.Ok? {
        var u1 := sent.value;
        var u2 := u1;
        if t.chunk != [] && id in u1.routes {
          var event := CL.BodyAccepted(u1.routes[id].client.id, |t.chunk|);
          u2 := Tell(u1, id, event);
          TellLoosens(u1, u1, id, id, event);
          KeepsThen(u, u1, u2);
        }
        if t.trailers.Some? {
          EndKeeps(u2, id, t.trailers.value);
          var queued := QueueFrame(u2.(encoder := u2.encoder.After(t.trailers.value)),
                                   Headers(id, u2.encoder.Block(t.trailers.value), true, true));
          var r := Upstream.ApplyEvent(queued, id, SendHeaders(true));
          if r.Ok? {
            KeepsThen(u, u2, r.value);
          }
        }
      }
    }
  }

  lemma EndKeeps(u: Up, id: StreamId, fields: seq<Header>)
    ensures var queued := QueueFrame(u.(encoder := u.encoder.After(fields)), Headers(id, u.encoder.Block(fields), true, true));
            var r := Upstream.ApplyEvent(queued, id, SendHeaders(true));
            r.Ok? ==> Keeps(u, r.value)
  {
    hide Upstream.ApplyEvent, EncoderState.Block, EncoderState.After, Keeps, Lineup, StreamState.PeerCanSend;
    var queued := QueueFrame(u.(encoder := u.encoder.After(fields)), Headers(id, u.encoder.Block(fields), true, true));
    SameLineup(u, queued);
    AlikeKeeps(u, queued);
    ApplyKeeps(queued, id, SendHeaders(true));
    var r := Upstream.ApplyEvent(queued, id, SendHeaders(true));
    if r.Ok? {
      KeepsThen(u, queued, r.value);
    }
  }

  /** Every step but a request, SETTINGS and stream credit. */
  lemma StepKeeps(u: Up, s: UpStep)
    requires Fits(u, s) && !(s.Hears? && s.message.Request?) && !s.SettingsArrive? && !s.CreditArrives?
    ensures Advance(u, s).Ok? ==> Keeps(u, Advance(u, s).value)
  {
    hide Keeps, OnMessage, OnResponse, FailStream, Upstream.OnData, Upstream.OnRst, OnGoAway, Upstream.VisitReady, Loosens;
    match s
    case Hears(message) => OtherMessageKeeps(u, message);
    case ResponseArrives(id, fields, endStream, check) => OnResponseKeeps(u, id, fields, endStream, check);
    case OversizedArrives(id) =>
      LooseFromHere(u, id);
      FailStreamKeeps(u, u, id, BAD_GATEWAY);
    case BodyArrives(id, data, endStream) => OnDataKeeps(u, id, data, endStream);
    case ResetArrives(id, code) => OnRstKeeps(u, id, code);
    case GoAwayArrives(last, above) => OnGoAwayKeeps(u, last, above);
    case Visits(id) => VisitKeeps(u, id);
  }
}
