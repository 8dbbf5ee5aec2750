/** What the connection to a backend tells each client of a response, judged as the
    client's connection judges a responder: nothing after the last word, and no
    answer that is only an end behind octets. It is so, over every run, exactly as
    long as the backend gives a head before octets and ends a stream with its
    trailers. */
module Responses {
  import opened Octets
  import opened Sums
  import opened Frame
  import opened Flow
  import opened HpackCodec
  import opened Streams
  import CL = ClientLeg
  import opened Scheduler
  import opened Upstream
  import opened Remapping
  import opened ClientOrder

  // -------------------------------------------------------------------------
  // What has been told of one stream.
  // -------------------------------------------------------------------------

  function Talk(acts: seq<Act>, id: StreamId): seq<CL.ServiceEvent>
    decreases |acts|
  {
    if acts == [] then []
    else
      var a := acts[|acts| - 1];
      if a.Told? && a.id == id then Talk(acts[..|acts| - 1], id) + [a.event] else Talk(acts[..|acts| - 1], id)
  }

  function Hearing(talk: seq<CL.ServiceEvent>): Ledger
    decreases |talk|
  {
    if talk == [] then NOTHING_SAID else Heard(Hearing(talk[..|talk| - 1]), talk[|talk| - 1])
  }

  /** Each word was one a dutiful responder may say after those before it. */
  predicate Duly(talk: seq<CL.ServiceEvent>)
    decreases |talk|
  {
    talk == [] ||
    (Duly(talk[..|talk| - 1]) && Dutiful(Hearing(talk[..|talk| - 1]), talk[|talk| - 1]))
  }

  lemma TalkSnoc(acts: seq<Act>, a: Act)
    ensures forall id :: Talk(acts + [a], id) == if a.Told? && a.id == id then Talk(acts, id) + [a.event] else Talk(acts, id)
  {
    assert (acts + [a])[..|acts|] == acts;
  }

  lemma DulySnoc(talk: seq<CL.ServiceEvent>, e: CL.ServiceEvent)
    ensures Hearing(talk + [e]) == Heard(Hearing(talk), e)
    ensures Duly(talk + [e]) <==> Duly(talk) && Dutiful(Hearing(talk), e)
  {
    assert (talk + [e])[..|talk|] == talk;
  }

  // -------------------------------------------------------------------------
  // What a connection owes.
  // -------------------------------------------------------------------------

  /** On a stream with a route the last word is still to come; and until a head has
      been given, no octets have. */
  predicate Unfinished(u: Up, id: StreamId)
    requires id in u.routes
  {
    var l, k := Hearing(Talk(u.acts, id)), u.routes[id].client.id;
    k !in l.ended && (u.routes[id].headSent || l.BodyFor(k) == [])
  }

  predicate OwesAt(u: Up, id: StreamId) {
    && (id in u.routes ==> Unfinished(u, id))
    && (id in u.streams.live ==> u.streams.live[id].state.PeerCanSend())
  }

  ghost predicate Told(u: Up) {
    forall id: StreamId :: Duly(Talk(u.acts, id))
  }

  ghost predicate Owes(u: Up) {
    Told(u) && forall id: StreamId :: OwesAt(u, id)
  }

  /** One stream has perhaps been finished, and is about to be let go. */
  ghost predicate OwesBut(u: Up, x: StreamId) {
    Told(u) && forall id: StreamId :: id != x ==> OwesAt(u, id)
  }

  /** Nothing is told, no route changes hands, and no stream stops short. */
  ghost predicate Quietly(u: Up, v: Up) {
    && (forall id: StreamId :: Talk(v.acts, id) == Talk(u.acts, id))
    && (forall id :: id in v.routes ==>
          id in u.routes && v.routes[id].client == u.routes[id].client && v.routes[id].headSent == u.routes[id].headSent)
    && (forall id :: id in v.streams.live ==>
          id in u.streams.live && (u.streams.live[id].state.PeerCanSend() ==> v.streams.live[id].state.PeerCanSend()))
  }

  lemma QuietOwes(u: Up, v: Up)
    requires Quietly(u, v)
    ensures Owes(u) ==> Owes(v)
    ensures forall x: StreamId :: OwesBut(u, x) ==> OwesBut(v, x)
  {
    hide Duly, Hearing, Talk, StreamState.PeerCanSend;
    if Told(u) {
      forall id: StreamId
        ensures Duly(Talk(v.acts, id)) && (OwesAt(u, id) ==> OwesAt(v, id))
      {
        assert Duly(Talk(u.acts, id));
      }
    }
  }

  lemma QuietThen(u: Up, v: Up, w: Up)
    requires Quietly(u, v) && Quietly(v, w)
    ensures Quietly(u, w)
  {
    hide Talk, StreamState.PeerCanSend;
  }

  /** One word more on one stream. */
  lemma TellOwes(u: Up, id: StreamId, e: CL.ServiceEvent)
    requires id in u.routes && Told(u) && Dutiful(Hearing(Talk(u.acts, id)), e)
    ensures var v := Tell(u, id, e);
            && Told(v) && v.routes == u.routes && v.streams == u.streams
            && Talk(v.acts, id) == Talk(u.acts, id) + [e]
            && Hearing(Talk(v.acts, id)) == Heard(Hearing(Talk(u.acts, id)), e)
            && (forall j: StreamId :: j != id && OwesAt(u, j) ==> OwesAt(v, j))
  {
    hide Duly, Hearing, Talk, Dutiful, Heard, StreamState.PeerCanSend;
    var a := Act.Told(id, u.routes[id].request, u.routes[id].client, e);
    TalkSnoc(u.acts, a);
    DulySnoc(Talk(u.acts, id), e);
    forall j: StreamId
      ensures Duly(Talk(Tell(u, id, e).acts, j))
    {
      assert Duly(Talk(u.acts, j));
    }
  }

  // -------------------------------------------------------------------------
  // Streams that open and go.
  // -------------------------------------------------------------------------

  /** Nothing has been told of a stream not yet opened. */
  lemma {:induction false} NothingTold(acts: seq<Act>, id: StreamId)
    requires InOrder(acts) && id > LastOpened(acts)
    ensures Talk(acts, id) == []
    decreases |acts|
  {
    if acts != [] {
      var past, a := acts[..|acts| - 1], acts[|acts| - 1];
      assert acts == past + [a];
      OpenedBelowLast(past);
      OpenedBelowLast(acts);
      LastOpenedGrows(past, a);
      NothingTold(past, id);
      if a.Told? {
        assert Act.Opened(a.id, a.request, a.client) in past;
      }
    }
  }

  lemma LastOpenedGrows(past: seq<Act>, a: Act)
    requires InOrder(past + [a])
    ensures LastOpened(past) <= LastOpened(past + [a])
  {
    ActSnoc(past, a);
  }

  lemma OpenOwes(u: Up, request: RequestId, client: Client, head: seq<Header>, endStream: bool, lost: nat, returned: Returns)
    requires Kept(u, lost, returned) && Owes(u) && CanOpenLocal(u.streams)
    ensures Owes(OpenStream(u, request, client, head, endStream))
  {
    hide Mutual, Recorded, Accounted, EncoderState.Block, EncoderState.After, Duly, Hearing, Talk, OpenStream, CanOpenLocal,
      StreamState.PeerCanSend;
    var id := StreamIdFrom(u.nextId);
    var v := OpenStream(u, request, client, head, endStream);
    OpenShape(u, request, client, head, endStream);
    OpenStates(u, request, client, head, endStream);
    TalkSnoc(u.acts, Act.Opened(id, request, client));
    NextIsUntold(u, id);
    NothingHeard();
    forall j: StreamId
      ensures Duly(Talk(v.acts, j)) && OwesAt(v, j)
    {
      assert Talk(v.acts, j) == Talk(u.acts, j) && Duly(Talk(u.acts, j)) && OwesAt(u, j);
    }
  }

  lemma NextIsUntold(u: Up, id: StreamId)
    requires Recorded(u) && id > u.streams.highestLocal
    ensures Talk(u.acts, id) == []
  {
    hide InOrder, Talk, LastOpened, OpenedIds, Heads;
    NothingTold(u.acts, id);
  }

  lemma NothingHeard()
    ensures Hearing([]) == NOTHING_SAID
  {
  }

  lemma OpenStates(u: Up, request: RequestId, client: Client, head: seq<Header>, endStream: bool)
    requires Numbered(u) && CanOpenLocal(u.streams)
    ensures var id := StreamIdFrom(u.nextId);
            var v := OpenStream(u, request, client, head, endStream);
            forall j :: j in v.streams.live ==>
              if j == id then v.streams.live[j].state.PeerCanSend() else j in u.streams.live && v.streams.live[j] == u.streams.live[j]
  {
    hide EncoderState.Block, EncoderState.After;
    NextIsFree(u);
  }

  lemma SendRequestOwes(u: Up, request: RequestId, client: Client, head: seq<Header>, endStream: bool, lost: nat, returned: Returns)
    requires Kept(u, lost, returned) && Owes(u)
    ensures Owes(SendRequest(u, request, client, head, endStream))
  {
    hide Kept, Owes, OpenStream, CanOpenLocal, Talk;
    var v := SendRequest(u, request, client, head, endStream);
    if request !in u.cancelled && u.draining.None? && CanOpenLocal(u.streams) {
      OpenOwes(u, request, client, head, endStream, lost, returned);
    } else {
      TalkSnoc(u.acts, TurnedAway(client, CL.ResetStream(client.id, RefusedStream)));
      TalkSnoc(u.acts, TurnedAway(client, CL.Shed(client.id)));
      QuietOwes(u, v);
    }
  }

  lemma AttachQuiet(u: Up, p: Pending)
    ensures Quietly(u, Attach(u, p))
  {
    hide Talk, Chunks, AnyEnd;
  }

  lemma {:induction false} DrainPendingOwes(u: Up, lost: nat, returned: Returns)
    requires Kept(u, lost, returned) && Owes(u)
    ensures Owes(DrainPending(u))
    decreases |u.pending|
  {
    hide Kept, Owes, SendRequest, Attach, CanOpenLocal, Unseen, Talk;
    if u.pending != [] && CanOpenLocal(u.streams) {
      var p := u.pending[0];
      var popped := u.(pending := u.pending[1..]);
      PopKept(u, lost, returned);
      QuietOwes(u, popped);
      SendRequestKept(popped, p.request, p.client, p.head, p.endStream, lost, returned);
      SendRequestOwes(popped, p.request, p.client, p.head, p.endStream, lost, returned);
      var sent := SendRequest(popped, p.request, p.client, p.head, p.endStream);
      AttachKept(sent, p, lost, returned);
      AttachQuiet(sent, p);
      QuietOwes(sent, Attach(sent, p));
      DrainPendingOwes(Attach(sent, p), lost, returned);
    }
  }

  /** A stream let go owes nothing more. */
  lemma GoneOwes(u: Up, v: Up, x: StreamId)
    requires OwesBut(u, x) && Quietly(u, v) && x !in v.routes && x !in v.streams.live
    ensures Owes(v)
  {
    hide Duly, Hearing, Talk, StreamState.PeerCanSend;
    QuietOwes(u, v);
    forall id: StreamId
      ensures OwesAt(v, id)
    {
    }
  }

  lemma ForgetOwes(u: Up, id: StreamId, lost: nat, returned: Returns)
    requires Kept(u, lost, returned) && OwesBut(u, id)
    ensures Owes(Forget(u, id))
  {
    hide Kept, Owes, OwesBut, DrainPending, Mutual, Numbered, Recorded, Total, Receive.Accounts, Talk, Quietly;
    var retired := RetireStream(u, id);
    RetireKept(u, id, lost, returned);
    RetireShape(u, id);
    if id in u.routes {
      DropRouteKept(retired, id, lost, returned);
      var v := DropRoute(retired, id);
      var n := u.routes[id].pendingConnRelease;
      var gone := if n > 0 then ReleaseConn(v, n) else v;
      if n > 0 {
        ReleaseConnKept(v, n, lost, returned);
      }
      DropQuiet(u, id);
      GoneOwes(u, gone, id);
      DrainPendingOwes(gone, lost, returned);
    } else {
      RetireQuiet(u, id);
      GoneOwes(u, retired, id);
      DrainPendingOwes(retired, lost, returned);
    }
  }

  lemma RetireQuiet(u: Up, id: StreamId)
    ensures Quietly(u, RetireStream(u, id)) && id !in RetireStream(u, id).streams.live
  {
    hide Talk;
  }

  lemma DropQuiet(u: Up, id: StreamId)
    requires id in u.routes
    ensures var v := DropRoute(RetireStream(u, id), id);
            var n := u.routes[id].pendingConnRelease;
            var gone := if n > 0 then ReleaseConn(v, n) else v;
            Quietly(u, gone) && id !in gone.routes && id !in gone.streams.live
  {
    hide Talk, Receive.Release;
    TalkSnoc(u.acts, Forgot(id));
  }

  lemma WriteRstQuiet(u: Up, id: StreamId, code: ErrorCode)
    ensures Quietly(u, WriteRst(u, id, code))
  {
    hide Talk;
  }

  /** A failure is the last word, if there has been no other. */
  lemma FailStreamOwes(u: Up, id: StreamId, status: seq<Header>, lost: nat, returned: Returns)
    requires Kept(u, lost, returned) && OwesBut(u, id) && (id in u.routes ==> u.routes[id].headSent || Unfinished(u, id))
    ensures Owes(FailStream(u, id, status))
  {
    hide Kept, Forget, WriteRst, Owes, Talk, Hearing, Quietly, Duly;
    var told :=
      if id !in u.routes then u
      else
        var client := u.routes[id].client.id;
        Tell(u, id, if u.routes[id].headSent then CL.ResetStream(client, InternalError) else CL.Head(client, status, true));
    if id in u.routes {
      var client := u.routes[id].client.id;
      TellKept(u, id, CL.ResetStream(client, InternalError), lost, returned);
      TellKept(u, id, CL.Head(client, status, true), lost, returned);
      TellOwes(u, id, if u.routes[id].headSent then CL.ResetStream(client, InternalError) else CL.Head(client, status, true));
    }
    assert OwesBut(told, id);
    if id in told.streams.live {
      WriteRstKept(told, id, ErrorCode.Cancel, lost, returned);
      WriteRstQuiet(told, id, ErrorCode.Cancel);
      QuietOwes(told, WriteRst(told, id, ErrorCode.Cancel));
      ForgetOwes(WriteRst(told, id, ErrorCode.Cancel), id, lost, returned);
    } else {
      ForgetOwes(told, id, lost, returned);
    }
  }

  lemma OwesAllBut(u: Up, id: StreamId)
    requires Owes(u)
    ensures OwesBut(u, id) && OwesAt(u, id)
  {
  }

  /** A legal event that does not end the peer's side. */
  lemma ApplyOwes(u: Up, id: StreamId, event: StreamEvent, lost: nat, returned: Returns)
    requires Kept(u, lost, returned) && Owes(u) && !event.IsReset() && !(event.Incoming() && event.Ends())
    ensures var r := Upstream.ApplyEvent(u, id, event); r.Ok? ==> Owes(r.value)
  {
    hide Kept, FailStream, Owes, Talk, Unfinished;
    OwesAllBut(u, id);
    var (table, r) := u.streams.Apply(id, event);
    if r.Ok? {
      QuietOwes(u, Upstream.ApplyEvent(u, id, event).value);
    } else {
      FailStreamOwes(u, id, BAD_GATEWAY, lost, returned);
    }
  }

  /** Any event of the peer's, on a stream that is then let go. */
  lemma ApplyOwesBut(u: Up, id: StreamId, event: StreamEvent, lost: nat, returned: Returns)
    requires Kept(u, lost, returned) && OwesBut(u, id) && event.Incoming()
    requires (id in u.routes ==> u.routes[id].headSent || Unfinished(u, id))
             || (id in u.streams.live && u.streams.live[id].state.PeerCanSend())
    ensures var r := Upstream.ApplyEvent(u, id, event); r.Ok? ==> OwesBut(r.value, id)
  {
    hide Kept, FailStream, Owes, Talk, Unfinished, Duly;
    var (table, r) := u.streams.Apply(id, event);
    if r.Ok? {
      MovedOwesBut(u, Upstream.ApplyEvent(u, id, event).value, id);
    } else {
      FailStreamOwes(u, id, BAD_GATEWAY, lost, returned);
      OwesAllBut(FailStream(u, id, BAD_GATEWAY), id);
    }
  }

  lemma MovedOwesBut(u: Up, v: Up, id: StreamId)
    requires OwesBut(u, id) && v.acts == u.acts && v.routes == u.routes
    requires forall j :: j != id && j in v.streams.live ==> j in u.streams.live && v.streams.live[j] == u.streams.live[j]
    ensures OwesBut(v, id)
  {
    hide Talk, Hearing, Duly;
    forall j: StreamId | j != id
      ensures OwesAt(v, j)
    {
      assert OwesAt(u, j);
    }
  }

  // -------------------------------------------------------------------------
  // The handlers.
  // -------------------------------------------------------------------------

  /** What a backend does that leaves a response going on behind its last word, or
      octets told of before any head: trailers that do not end the stream, and DATA
      before the response has begun. */
  predicate Strays(u: Up, s: UpStep)
    requires Fits(u, s)
  {
    match s
    case ResponseArrives(id, fields, endStream, _) =>
      && id in u.routes && u.routes[id].headSent && id in u.streams.live
      && CL.ValidTrailers(fields) && !endStream
    case BodyArrives(id, data, endStream) =>
      && id in u.routes && !u.routes[id].headSent && id in u.streams.live
      && u.connRecv.Record(|data|).Some? && u.streams.live[id].recvWindow.Record(|data|).Some?
      && data != [] && !endStream
    case _ => false
  }

  lemma OnResponseOwes(u: Up, id: StreamId, fields: seq<Header>, endStream: bool, check: HeadCheck, lost: nat, returned: Returns)
    requires Kept(u, lost, returned) && Owes(u) && !Strays(u, ResponseArrives(id, fields, endStream, check))
    ensures var r := OnResponse(u, id, fields, endStream, check); r.Ok? ==> Owes(r.value)
  {
    hide Kept, Upstream.ApplyEvent, FailStream, Forget, CL.ValidTrailers, Owes, OwesBut, Talk;
    OwesAllBut(u, id);
    if id in u.routes && !u.streams.Find(id).NeverOpened? {
      if u.routes[id].headSent {
        TrailersOwe(u, id, fields, endStream, lost, returned);
      } else if check.BadHead? {
        FailStreamOwes(u, id, BAD_GATEWAY, lost, returned);
      } else if check.Interim? {
        ApplyOwes(u, id, RecvHeaders(false), lost, returned);
      } else {
        HeadOwes(u, id, fields, endStream, lost, returned);
      }
    }
  }

  lemma TrailersOwe(u: Up, id: StreamId, fields: seq<Header>, endStream: bool, lost: nat, returned: Returns)
    requires Kept(u, lost, returned) && Owes(u) && id in u.routes && u.routes[id].headSent
    requires !endStream && CL.ValidTrailers(fields) ==> id !in u.streams.live
    ensures var told := if CL.ValidTrailers(fields) then Tell(u, id, CL.Trailers(u.routes[id].client.id, fields)) else u;
            var r := Upstream.ApplyEvent(told, id, RecvHeaders(endStream));
            r.Ok? ==> Owes(if endStream then Forget(r.value, id) else r.value)
  {
    hide Kept, Upstream.ApplyEvent, FailStream, Forget, CL.ValidTrailers, Talk, Hearing, Duly;
    OwesAllBut(u, id);
    var event := CL.Trailers(u.routes[id].client.id, fields);
    TellKept(u, id, event, lost, returned);
    TellOwes(u, id, event);
    var told := if CL.ValidTrailers(fields) then Tell(u, id, event) else u;
    assert OwesBut(told, id);
    if endStream {
      ApplyEventKept(told, id, RecvHeaders(true), lost, returned);
      ApplyOwesBut(told, id, RecvHeaders(true), lost, returned);
      if Upstream.ApplyEvent(told, id, RecvHeaders(true)).Ok? {
        ForgetOwes(Upstream.ApplyEvent(told, id, RecvHeaders(true)).value, id, lost, returned);
      }
    } else if CL.ValidTrailers(fields) {
      ApplyToGone(told, id, RecvHeaders(false));
      FailStreamOwes(told, id, BAD_GATEWAY, lost, returned);
    } else {
      ApplyOwes(u, id, RecvHeaders(false), lost, returned);
    }
  }

  /** An event on a stream that is no longer there fails it, or the connection. */
  lemma ApplyToGone(u: Up, id: StreamId, event: StreamEvent)
    requires id !in u.streams.live
    ensures var r := Upstream.ApplyEvent(u, id, event); r.Ok? ==> r.value == FailStream(u, id, BAD_GATEWAY)
  {
    hide FailStream;
  }

  lemma HeadOwes(u: Up, id: StreamId, fields: seq<Header>, endStream: bool, lost: nat, returned: Returns)
    requires Kept(u, lost, returned) && Owes(u) && id in u.routes && !u.routes[id].headSent
    ensures var told := Tell(u.(routes := u.routes[id := u.routes[id].(headSent := true)]), id,
                             CL.Head(u.routes[id].client.id, fields, endStream));
            var r := Upstream.ApplyEvent(told, id, RecvHeaders(endStream));
            r.Ok? ==> Owes(if endStream then Forget(r.value, id) else r.value)
  {
    hide Kept, Upstream.ApplyEvent, FailStream, Forget, Talk, Hearing, Duly;
    OwesAllBut(u, id);
    var marked := u.(routes := u.routes[id := u.routes[id].(headSent := true)]);
    var event := CL.Head(u.routes[id].client.id, fields, endStream);
    HeadSentKept(u, id, lost, returned);
    TellKept(marked, id, event, lost, returned);
    TellOwes(marked, id, event);
    var told := Tell(marked, id, event);
    forall j: StreamId | j != id
      ensures OwesAt(told, j)
    {
      assert OwesAt(u, j) && OwesAt(marked, j);
    }
    if endStream {
      ApplyEventKept(told, id, RecvHeaders(true), lost, returned);
      ApplyOwesBut(told, id, RecvHeaders(true), lost, returned);
      if Upstream.ApplyEvent(told, id, RecvHeaders(true)).Ok? {
        ForgetOwes(Upstream.ApplyEvent(told, id, RecvHeaders(true)).value, id, lost, returned);
      }
    } else {
      assert OwesAt(told, id);
      ApplyOwes(told, id, RecvHeaders(false), lost, returned);
    }
  }

  /** Octets for a live stream: told on, and the last word only when they end it. */
  lemma SendOnOwes(u: Up, id: StreamId, data: seq<Octet>, endStream: bool, lost: nat, returned: Returns)
    requires Mutual(u) && Numbered(u) && Recorded(u) && Tracked(u, returned) && Owes(u)
    requires id in u.streams.live && id in u.routes && |data| < U32_LIMIT
    requires u.connRecv.Accounts(|data| + lost + Total(u.routes, Held))
    requires u.routes[id].headSent || data == [] || endStream
    ensures var r := SendOn(u, id, data, endStream); r.Ok? ==> Owes(r.value)
  {
    hide Kept, Mutual, Numbered, Recorded, Tracked, Total, Receive.Accounts, Upstream.ApplyEvent, Forget, Talk, Hearing, Duly;
    OwesAllBut(u, id);
    TellBodyKept(u, id, data, endStream, lost, returned);
    var held := SaturatingAdd(u.routes[id].pendingConnRelease, |data|);
    var owed := u.(routes := u.routes[id := u.routes[id].(pendingConnRelease := held)]);
    var event := CL.BodyData(u.routes[id].client.id, data, endStream);
    TellOwes(owed, id, event);
    var told := Tell(owed, id, event);
    forall j: StreamId | j != id
      ensures OwesAt(told, j)
    {
      assert OwesAt(u, j) && OwesAt(owed, j);
    }
    if endStream {
      ApplyEventKept(told, id, RecvData(true), lost, returned);
      ApplyOwesBut(told, id, RecvData(true), lost, returned);
      if Upstream.ApplyEvent(told, id, RecvData(true)).Ok? {
        ForgetOwes(Upstream.ApplyEvent(told, id, RecvData(true)).value, id, lost, returned);
      }
    } else {
      assert OwesAt(told, id);
      ApplyOwes(told, id, RecvData(false), lost, returned);
    }
  }

  lemma OnDataOwes(u: Up, id: StreamId, data: seq<Octet>, endStream: bool, lost: nat, returned: Returns)
    requires Kept(u, lost, returned) && Owes(u) && |data| < U32_LIMIT && !Strays(u, BodyArrives(id, data, endStream))
    ensures var r := Upstream.OnData(u, id, data, endStream); r.Ok? ==> Owes(r.value)
  {
    hide Mutual, Recorded, DataTold, Total, SendOn, FailStream, WriteRst, Receive.Record, Receive.Accounts, ReleaseConn, Owes,
      Quietly;
    RecordAccounts(u.connRecv, lost + Total(u.routes, Held), |data|);
    var recorded := u.connRecv.Record(|data|);
    if recorded.Some? {
      var u1 := u.(connRecv := recorded.value);
      MovedRecv(u, recorded.value);
      RecordKeepsInitial(u.connRecv, |data|);
      RecvQuiet(u, recorded.value, |data|);
      QuietOwes(u, u1);
      match u1.streams.Find(id)
      case NeverOpened =>
      case WasClosed => QuietOwes(u1, ReleaseConn(u1, |data|));
      case Live(s) =>
        var window := s.recvWindow.Record(|data|);
        if window.None? {
          OverspentOwes(u1, id, lost + |data|, returned);
        } else {
          var u2 := Put(u1, id, s.(recvWindow := window.value));
          PutShape(u1, id, s.(recvWindow := window.value));
          PutQuiet(u1, id, s.(recvWindow := window.value));
          QuietOwes(u1, u2);
          SendOnOwes(u2, id, data, endStream, lost, returned);
        }
    }
  }

  lemma RecvQuiet(u: Up, window: Receive, n: U32)
    ensures var v := u.(connRecv := window); Quietly(u, v) && Quietly(v, ReleaseConn(v, n))
  {
    hide Talk, Receive.Release;
  }

  lemma OverspentOwes(u: Up, id: StreamId, lost: nat, returned: Returns)
    requires Kept(u, lost, returned) && Owes(u)
    ensures Owes(FailStream(WriteRst(u, id, FlowControlError), id, BAD_GATEWAY))
  {
    hide Kept, FailStream, WriteRst, Owes, Talk;
    var reset := WriteRst(u, id, FlowControlError);
    WriteRstKept(u, id, FlowControlError, lost, returned);
    WriteRstQuiet(u, id, FlowControlError);
    QuietOwes(u, reset);
    OwesAllBut(reset, id);
    FailStreamOwes(reset, id, BAD_GATEWAY, lost, returned);
  }

  lemma PutQuiet(u: Up, id: StreamId, s: Stream)
    requires id in u.streams.live && s.state == u.streams.live[id].state
    ensures Quietly(u, Put(u, id, s)) && Quietly(u, EnqueueReady(Put(u, id, s), id))
  {
    hide Talk;
  }

  lemma OnRstOwes(u: Up, id: StreamId, code: ErrorCode, lost: nat, returned: Returns)
    requires Kept(u, lost, returned) && Owes(u)
    ensures Owes(Upstream.OnRst(u, id, code))
  {
    hide Kept, Forget, Talk, Hearing, Duly;
    OwesAllBut(u, id);
    if id in u.routes {
      var event := CL.ResetStream(u.routes[id].client.id, code);
      TellKept(u, id, event, lost, returned);
      TellOwes(u, id, event);
      assert OwesBut(Tell(u, id, event), id);
      ForgetOwes(Tell(u, id, event), id, lost, returned);
    } else {
      ForgetOwes(u, id, lost, returned);
    }
  }

  lemma OnWindowUpdateOwes(u: Up, id: StreamId, increment: U32, lost: nat, returned: Returns)
    requires Kept(u, lost, returned) && Owes(u)
    ensures var r := Upstream.OnWindowUpdate(u, id, increment); r.Ok? ==> Owes(r.value)
  {
    hide Kept, WriteRst, EnqueueReady, Owes, Talk;
    WriteRstQuiet(u, id, ProtocolError);
    QuietOwes(u, WriteRst(u, id, ProtocolError));
    WriteRstQuiet(u, id, FlowControlError);
    QuietOwes(u, WriteRst(u, id, FlowControlError));
    var all := u.connSend.Increase(increment);
    if all.Some? {
      QuietOwes(u, u.(connSend := all.value));
    }
    if id in u.streams.live {
      var credited := u.streams.live[id].sendWindow.Increase(increment);
      if credited.Some? {
        var s := u.streams.live[id].(sendWindow := credited.value);
        PutQuiet(u, id, s);
        QuietOwes(u, EnqueueReady(Put(u, id, s), id));
      }
    }
  }

  lemma OnSettingsOwes(u: Up, params: seq<Param>)
    requires Owes(u)
    ensures var r := Upstream.OnSettings(u, params); r.Ok? ==> Owes(r.value)
  {
    hide CL.ApplySettings, LimitIn, Owes, Talk;
    var r := Upstream.OnSettings(u, params);
    if r.Ok? {
      assert Quietly(u, r.value);
      QuietOwes(u, r.value);
    }
  }

  lemma {:induction false} RefuseAllQuiet(u: Up, waiting: seq<Pending>)
    ensures Quietly(u, RefuseAll(u, waiting))
    decreases |waiting|
  {
    hide Talk;
    if waiting != [] {
      var event := CL.ResetStream(waiting[0].client.id, RefusedStream);
      var v := Refuse(u, waiting[0].client, event);
      TalkSnoc(u.acts, TurnedAway(waiting[0].client, event));
      RefuseAllQuiet(v, waiting[1..]);
      QuietThen(u, v, RefuseAll(v, waiting[1..]));
    }
  }

  lemma {:induction false} AbandonOwes(u: Up, ids: seq<StreamId>, lost: nat, returned: Returns)
    requires Kept(u, lost, returned) && Owes(u)
    ensures Owes(Abandon(u, ids))
    decreases |ids|
  {
    if ids != [] {
      hide Kept, Owes, Upstream.OnRst;
      OnRstKept(u, ids[0], RefusedStream, lost, returned);
      OnRstOwes(u, ids[0], RefusedStream, lost, returned);
      AbandonOwes(Upstream.OnRst(u, ids[0], RefusedStream), ids[1..], lost, returned);
    }
  }

  lemma OnGoAwayOwes(u: Up, last: StreamId, above: seq<StreamId>, lost: nat, returned: Returns)
    requires Kept(u, lost, returned) && Owes(u) && Past(u.routes, last, above)
    ensures Owes(OnGoAway(u, last, above))
  {
    hide Mutual, Numbered, Recorded, Accounted, RefuseAll, Abandon, Owes, Talk;
    var cleared := u.(draining := Some(last), pending := []);
    WaitingKept(u, u.(pending := []), lost, returned);
    DrainingKept(u.(pending := []), last, lost, returned);
    RefuseAllKept(cleared, u.pending, lost, returned);
    RefuseAllQuiet(cleared, u.pending);
    QuietOwes(u, cleared);
    QuietOwes(cleared, RefuseAll(cleared, u.pending));
    AbandonOwes(RefuseAll(cleared, u.pending), above, lost, returned);
  }

  lemma OnMessageOwes(u: Up, m: Message, lost: nat, returned: Returns)
    requires Kept(u, lost, returned) && Owes(u)
    ensures Owes(OnMessage(u, m))
  {
    hide Kept, SendRequest, Release, WriteRst, Forget, EnqueueReady, Owes, OwesBut, Talk;
    match m
    case Request(request, client, head, endStream) =>
      SendRequestOwes(u, request, client, head, endStream, lost, returned);
    case RequestBody(request, data, endStream) =>
      QuietOwes(u, u.(pending := AppendBody(u.pending, request, data, endStream)));
      if request in u.requests && u.requests[request] in u.streams.live {
        var id := u.requests[request];
        var s := u.streams.live[id];
        var t := s.(sendQueue := if data == [] then s.sendQueue else s.sendQueue + [data],
                    sendEndStream := s.sendEndStream || endStream);
        PutQuiet(u, id, t);
        QuietOwes(u, EnqueueReady(Put(u, id, t), id));
      }
    case RequestEnd(request, fields) =>
      QuietOwes(u, u.(pending := AppendTrailers(u.pending, request, fields)));
      if request in u.requests && u.requests[request] in u.streams.live {
        var id := u.requests[request];
        var t := u.streams.live[id].(pendingTrailers := Some(fields), sendEndStream := true);
        PutQuiet(u, id, t);
        QuietOwes(u, EnqueueReady(Put(u, id, t), id));
      }
    case Delivered(request, n) =>
      if request in u.requests {
        ReleaseQuiet(u, u.requests[request], n);
        QuietOwes(u, Release(u, u.requests[request], n));
      }
    case Cancel(request, code) =>
      QuietOwes(u, u.(pending := WithoutRequest(u.pending, request), cancelled := u.cancelled + {request}));
      if request in u.requests {
        CancelOwes(u, u.requests[request], code, lost, returned);
      }
  }

  lemma ReleaseQuiet(u: Up, id: StreamId, n: U32)
    ensures Quietly(u, Release(u, id, n))
  {
    hide Talk, Receive.Release, StreamState.PeerCanSend;
  }

  lemma CancelOwes(u: Up, id: StreamId, code: ErrorCode, lost: nat, returned: Returns)
    requires Kept(u, lost, returned) && Owes(u)
    ensures Owes(Forget(if id in u.streams.live then WriteRst(u, id, code) else u, id))
  {
    hide Kept, WriteRst, Forget, Owes, Talk;
    OwesAllBut(u, id);
    WriteRstKept(u, id, code, lost, returned);
    WriteRstQuiet(u, id, code);
    QuietOwes(u, WriteRst(u, id, code));
    ForgetOwes(WriteRst(u, id, code), id, lost, returned);
    ForgetOwes(u, id, lost, returned);
  }

  lemma SendBodyOwes(u: Up, id: StreamId, t: Taken, lost: nat, returned: Returns)
    requires Kept(u, lost, returned) && Owes(u) && id in u.streams.live && |t.chunk| < U32_LIMIT
    requires t.rest.state == u.streams.live[id].state
    ensures var r := Upstream.SendBody(u, id, t); r.Ok? ==> Owes(r.value)
  {
    hide Kept, Upstream.ApplyEvent, Quietly, Owes;
    var own, all := t.rest.sendWindow.Consume(|t.chunk|), u.connSend.Consume(|t.chunk|);
    if t.chunk == [] || (own.Some? && all.Some?) {
      var spent := if t.chunk == [] then t.rest else t.rest.(sendWindow := own.value);
      var window := if t.chunk == [] then u.connSend else all.value;
      SpentKept(u, id, spent, window, t, lost, returned);
      var queued := QueueFrame(Put(u, id, spent).(connSend := window), Data(id, t.chunk, t.endStream));
      QuietOwes(u, Put(u, id, spent).(connSend := window));
      QuietOwes(u, queued);
      ApplyOwes(queued, id, SendData(t.endStream), lost, returned);
    }
  }

  lemma SpentKept(u: Up, id: StreamId, spent: Stream, window: Window, t: Taken, lost: nat, returned: Returns)
    requires Kept(u, lost, returned) && id in u.streams.live && spent.state == u.streams.live[id].state
    ensures var v := Put(u, id, spent).(connSend := window);
            var queued := QueueFrame(v, Data(id, t.chunk, t.endStream));
            Quietly(u, v) && Quietly(u, queued) && Kept(queued, lost, returned)
  {
    hide Kept, Talk;
    PutKept(u, id, spent, lost, returned);
    var u1 := Put(u, id, spent);
    SameKept(u1, u1.(connSend := window), lost, returned);
    QueueKept(u1.(connSend := window), Data(id, t.chunk, t.endStream), lost, returned);
  }

  lemma AcceptedOwes(u: Up, id: StreamId, n: U32)
    requires Owes(u) && id in u.routes
    ensures Owes(Tell(u, id, CL.BodyAccepted(u.routes[id].client.id, n)))
  {
    hide Duly, Hearing, Talk;
    var event := CL.BodyAccepted(u.routes[id].client.id, n);
    TellOwes(u, id, event);
    assert OwesAt(u, id);
    forall j: StreamId
      ensures OwesAt(Tell(u, id, event), j)
    {
      assert OwesAt(u, j);
    }
  }

  lemma VisitOwes(u: Up, id: StreamId, lost: nat, returned: Returns)
    requires Kept(u, lost, returned) && Owes(u)
    ensures var r := Upstream.VisitReady(u, id); r.Ok? ==> Owes(r.value)
  {
    hide Kept, Upstream.SendBody, Upstream.ApplyEvent, Take, Stream.PendingSend, EncoderState.Block, EncoderState.After,
      OpenedIds, Owes, Talk;
    if id in u.streams.live {
      var s := u.streams.live[id];
      var budget := Upstream.Budget(u, s);
      var t := Take(s, budget);
      TakeKeepsState(s, budget);
      PutQuiet(u, id, s.(queued := false));
      QuietOwes(u, Put(u, id, s.(queued := false)));
      PutQuiet(u, id, t.rest);
      QuietOwes(u, Put(u, id, t.rest));
      TakeWithin(s, budget);
      UpSendBodyKept(u, id, t, lost, returned);
      SendBodyOwes(u, id, t, lost, returned);
      var sent := Upstream.SendBody(u, id, t);
      if sent.Ok? {
        var u1 := sent.value;
        var u2 := if t.chunk != [] && id in u1.routes then
                    Tell(u1, id, CL.BodyAccepted(u1.routes[id].client.id, |t.chunk|))
                  else u1;
        if id in u1.routes && t.chunk != [] {
          TellKept(u1, id, CL.BodyAccepted(u1.routes[id].client.id, |t.chunk|), lost, returned);
          AcceptedOwes(u1, id, |t.chunk|);
        }
        if t.trailers.Some? {
          UpSendBodyGrows(u, id, t);
          LiveStaysOpened(u, u2, id, lost, returned);
          EndOwes(u2, id, t.trailers.value, lost, returned);
        }
      }
    }
  }

  lemma EndOwes(u: Up, id: StreamId, fields: seq<Header>, lost: nat, returned: Returns)
    requires Kept(u, lost, returned) && Owes(u) && id in OpenedIds(u.acts)
    ensures var queued := QueueFrame(u.(encoder := u.encoder.After(fields)), Headers(id, u.encoder.Block(fields), true, true));
            var r := Upstream.ApplyEvent(queued, id, SendHeaders(true));
            r.Ok? ==> Owes(r.value)
  {
    hide Mutual, Numbered, Accounted, Upstream.ApplyEvent, EncoderState.Block, EncoderState.After, Owes, Talk;
    var queued := QueueFrame(u.(encoder := u.encoder.After(fields)), Headers(id, u.encoder.Block(fields), true, true));
    HeadsSnoc(u.written, Headers(id, u.encoder.Block(fields), true, true));
    SameKept(u, queued, lost, returned);
    QuietOwes(u, queued);
    ApplyOwes(queued, id, SendHeaders(true), lost, returned);
  }

  // -------------------------------------------------------------------------
  // Whole runs.
  // -------------------------------------------------------------------------

  lemma StepOwes(u: Up, s: UpStep, lost: nat, returned: Returns)
    requires Fits(u, s) && Kept(u, lost, returned) && Owes(u) && !Strays(u, s)
    ensures Advance(u, s).Ok? ==> Owes(Advance(u, s).value)
  {
    hide Kept, Owes, OnMessage, OnResponse, FailStream, Upstream.OnData, Upstream.OnRst, Upstream.OnWindowUpdate,
      Upstream.OnSettings, OnGoAway, Upstream.VisitReady;
    match s
    case Hears(message) => OnMessageOwes(u, message, lost, returned);
    case ResponseArrives(id, fields, endStream, check) =>
      OnResponseOwes(u, id, fields, endStream, check, lost, returned);
    case OversizedArrives(id) =>
      OwesAllBut(u, id);
      FailStreamOwes(u, id, BAD_GATEWAY, lost, returned);
    case BodyArrives(id, data, endStream) => OnDataOwes(u, id, data, endStream, lost, returned);
    case ResetArrives(id, code) => OnRstOwes(u, id, code, lost, returned);
    case CreditArrives(id, increment) => OnWindowUpdateOwes(u, id, increment, lost, returned);
    case SettingsArrive(params) => OnSettingsOwes(u, params);
    case GoAwayArrives(last, above) => OnGoAwayOwes(u, last, above, lost, returned);
    case Visits(id) => VisitOwes(u, id, lost, returned);
  }

  /** Straying goes through, and leaves a route past its last word or with octets
      told of behind no head, while the backend may go on. */
  lemma StrayOwes(u: Up, s: UpStep)
    requires Fits(u, s) && Owes(u) && Strays(u, s)
    ensures Advance(u, s).Ok?
    ensures var v := Advance(u, s).value;
            && s.id in v.routes && v.routes[s.id].headSent == u.routes[s.id].headSent
            && s.id in v.streams.live && v.streams.live[s.id].state.PeerCanSend()
            && !Unfinished(v, s.id)
  {
    hide Owes, Unfinished, OnResponse, Upstream.OnData;
    match s
    case ResponseArrives(id, fields, _, check) => StrayTrailers(u, id, fields, check);
    case BodyArrives(id, data, _) => StrayOctets(u, id, data);
  }

  lemma StrayTrailers(u: Up, id: StreamId, fields: seq<Header>, check: HeadCheck)
    requires Owes(u) && id in u.routes && u.routes[id].headSent && id in u.streams.live && CL.ValidTrailers(fields)
    ensures var r := OnResponse(u, id, fields, false, check);
            && r.Ok? && id in r.value.routes && r.value.routes[id].headSent == u.routes[id].headSent
            && id in r.value.streams.live && r.value.streams.live[id].state.PeerCanSend()
            && !Unfinished(r.value, id)
  {
    hide Duly, Hearing, Talk, CL.ValidTrailers, FailStream, Forget;
    assert OwesAt(u, id);
    TalkGains(u, id, CL.Trailers(u.routes[id].client.id, fields));
  }

  lemma StrayOctets(u: Up, id: StreamId, data: seq<Octet>)
    requires Owes(u) && |data| < U32_LIMIT && Strays(u, BodyArrives(id, data, false))
    ensures var r := Upstream.OnData(u, id, data, false);
            && r.Ok? && id in r.value.routes && r.value.routes[id].headSent == u.routes[id].headSent
            && id in r.value.streams.live && r.value.streams.live[id].state.PeerCanSend()
            && !Unfinished(r.value, id)
  {
    hide Duly, Hearing, Talk, FailStream, Forget, Receive.Record;
    assert OwesAt(u, id);
    var held := SaturatingAdd(u.routes[id].pendingConnRelease, |data|);
    TalkGains(u.(routes := u.routes[id := u.routes[id].(pendingConnRelease := held)]), id,
              CL.BodyData(u.routes[id].client.id, data, false));
  }

  lemma TalkGains(u: Up, id: StreamId, e: CL.ServiceEvent)
    requires id in u.routes
    ensures Hearing(Talk(Tell(u, id, e).acts, id)) == Heard(Hearing(Talk(u.acts, id)), e)
  {
    TalkSnoc(u.acts, Act.Told(id, u.routes[id].request, u.routes[id].client, e));
    DulySnoc(Talk(u.acts, id), e);
  }

  /** What a backend may say next to a stream it has strayed on. */
  function Telltale(u: Up, id: StreamId): UpStep
    requires id in u.routes
  {
    if u.routes[id].headSent then ResponseArrives(id, [], false, Final) else OversizedArrives(id)
  }

  /** And straying matters: the backend's next word can make the connection tell a
      client something after the last word, or an answer that is only an end behind
      octets. */
  lemma StrayIsHeard(u: Up, id: StreamId)
    requires id in u.routes && !Unfinished(u, id) && id in u.streams.live && u.streams.live[id].state.PeerCanSend()
    ensures Advance(u, Telltale(u, id)).Ok? && !Told(Advance(u, Telltale(u, id)).value)
  {
    hide Duly, Hearing, Talk, Forget, WriteRst, Told;
    var client := u.routes[id].client.id;
    if u.routes[id].headSent {
      WrongWord(u, Advance(u, Telltale(u, id)).value, id, CL.Trailers(client, []));
    } else {
      var told := Tell(u, id, CL.Head(client, BAD_GATEWAY, true));
      WriteRstGrew(told, id, ErrorCode.Cancel);
      ForgetAfter(told, WriteRst(told, id, ErrorCode.Cancel), id);
      assert told.acts <= Advance(u, Telltale(u, id)).value.acts;
      WrongWord(u, Advance(u, Telltale(u, id)).value, id, CL.Head(client, BAD_GATEWAY, true));
    }
  }

  lemma WrongWord(u: Up, v: Up, id: StreamId, e: CL.ServiceEvent)
    requires id in u.routes && !Dutiful(Hearing(Talk(u.acts, id)), e) && Tell(u, id, e).acts <= v.acts
    ensures !Told(v)
  {
    hide Hearing, Dutiful;
    TalkSnoc(u.acts, Act.Told(id, u.routes[id].request, u.routes[id].client, e));
    DulySnoc(Talk(u.acts, id), e);
    DulyBefore(Tell(u, id, e).acts, v.acts, id);
  }

  lemma {:induction false} DulyBefore(acts: seq<Act>, more: seq<Act>, id: StreamId)
    requires acts <= more
    ensures Duly(Talk(more, id)) ==> Duly(Talk(acts, id))
    decreases |more|
  {
    if acts != more {
      var past, a := more[..|more| - 1], more[|more| - 1];
      assert more == past + [a];
      TalkSnoc(past, a);
      if a.Told? {
        DulySnoc(Talk(past, id), a.event);
      }
      DulyBefore(acts, past, id);
    }
  }

  ghost predicate NeverStrays(u: Up, steps: seq<UpStep>)
    requires Plausible(u, steps)
    decreases |steps|
  {
    steps != [] ==>
      && !Strays(u, steps[0])
      && (Advance(u, steps[0]).Ok? ==> NeverStrays(Advance(u, steps[0]).value, steps[1..]))
  }

  ghost predicate AlwaysOwes(u: Up, steps: seq<UpStep>)
    requires Plausible(u, steps)
    decreases |steps|
  {
    && Owes(u)
    && (steps != [] && Advance(u, steps[0]).Ok? ==> AlwaysOwes(Advance(u, steps[0]).value, steps[1..]))
  }

  /** Over every run, from any state in which it holds: what each client is told is
      what a dutiful responder says, and every stream with a route has its last word
      to come, if and only if the backend never strays. */
  lemma {:induction false} AlwaysDutiful(u: Up, t: Tally, steps: seq<UpStep>)
    requires Kept(u, t.lost, t.returned) && Owes(u) && Plausible(u, steps)
    ensures AlwaysOwes(u, steps) <==> NeverStrays(u, steps)
    decreases |steps|
  {
    if steps != [] {
      hide Kept, Owes, Unfinished, Advance, Honest, Strays;
      if Strays(u, steps[0]) {
        StrayOwes(u, steps[0]);
        UnfinishedIsOwed(Advance(u, steps[0]).value, steps[0].id);
      } else {
        StepOwes(u, steps[0], t.lost, t.returned);
        DoKept(u, steps[0], t);
        if Advance(u, steps[0]).Ok? {
          AlwaysDutiful(Advance(u, steps[0]).value, Tallied(t, u, steps[0]), steps[1..]);
        }
      }
    }
  }

  lemma UnfinishedIsOwed(u: Up, id: StreamId)
    requires id in u.routes && !Unfinished(u, id)
    ensures !Owes(u)
  {
    assert !OwesAt(u, id);
  }

  lemma NewUpOwes(maxPending: nat, window: CL.WindowSize, streamWindow: CL.WindowSize)
    ensures Owes(NewUp(maxPending, window, streamWindow))
  {
  }
}
