/** The backpressure bridge: response octets on their way from the upstream task,
    through the event channel, to a client's send queue, and their release on its
    way back. Over every interleaving each route holds at least the credit for all
    its octets still on this side of the client, so what is in memory of responses
    not yet ended never exceeds one upstream window. */
module Bridge {
  import opened Octets
  import opened Frame
  import opened Flow
  import opened Streams
  import CL = ClientLeg
  import opened Sums
  import opened Upstream
  import opened Remapping

  /** The upstream task with its inbox, the events it sent that have not arrived,
      and, for each request a client still cares for, the octets of its response
      waiting in that client's send queue. `issued` counts leases given out. */
  datatype Bridge = Bridge(
    up: Up,
    tally: Tally,
    inbox: seq<Message>,
    flying: seq<Act>,
    queues: map<RequestId, nat>,
    issued: RequestId)

  /** What can happen next, in any order. */
  datatype Event =
    | Backend(step: UpStep)
    | Inbox
    | Arrives(i: nat)
    | Asks(client: Client, head: seq<HpackHeader>, endStream: bool)
    | Says(message: Message)
    | WritesOut(request: RequestId, n: U32, reported: bool)
    | LetsGo(request: RequestId)

  type HpackHeader = HpackCodec.Header

  import HpackCodec

  function AfterUp(b: Bridge, s: UpStep): Result<Bridge, ErrorCode>
    requires Fits(b.up, s)
  {
    var next :- Advance(b.up, s);
    Ok(b.(up := next, tally := Tallied(b.tally, b.up, s),
          flying := b.flying + News(next.acts, |b.up.acts|)))
  }

  /** The events among the acts from the `from`-th on. */
  function News(acts: seq<Act>, from: nat): seq<Act>
    decreases |acts|
  {
    if |acts| <= from then []
    else
      var last := acts[|acts| - 1];
      News(acts[..|acts| - 1], from) + (if last.Told? then [last] else [])
  }

  function Without<T>(s: seq<T>, i: nat): seq<T>
    requires i < |s|
  {
    s[..i] + s[i + 1..]
  }

  /** Events for one client connection arrive in the order they were sent. */
  predicate MayArrive(b: Bridge, i: nat) {
    && i < |b.flying| && b.flying[i].Told?
    && forall j :: 0 <= j < i ==> b.flying[j].Told? ==> b.flying[j].client.channel != b.flying[i].client.channel
  }

  predicate Enabled(b: Bridge, e: Event) {
    match e
    case Backend(s) => !s.Hears? && Fits(b.up, s)
    case Inbox => b.inbox != []
    case Arrives(i) => MayArrive(b, i)
    case Asks(_, _, _) => true
    case Says(m) => !m.Request? && !m.Delivered?
    case WritesOut(q, n, _) => q in b.queues && 0 < n <= b.queues[q]
    case LetsGo(q) => true
  }

  /** An event reaches its client. Octets for a request the client has let go are
      dropped. */
  function Arrive(b: Bridge, i: nat): Bridge
    requires MayArrive(b, i)
  {
    var a := b.flying[i];
    var landed := b.(flying := Without(b.flying, i));
    if a.event.BodyData? && a.request in b.queues then
      landed.(queues := b.queues[a.request := b.queues[a.request] + |a.event.data|])
    else landed
  }

  function Ask(b: Bridge, client: Client, head: seq<HpackHeader>, endStream: bool): Bridge {
    b.(inbox := b.inbox + [Request(b.issued, client, head, endStream)],
       queues := b.queues[b.issued := 0], issued := b.issued + 1)
  }

  function Say(b: Bridge, m: Message): Bridge {
    b.(inbox := b.inbox + [m])
  }

  /** Octets go out to the client. The last of a finished stream go out after its
      route is gone and are not reported. */
  function WriteOut(b: Bridge, q: RequestId, n: U32, reported: bool): Bridge
    requires q in b.queues && n <= b.queues[q]
  {
    b.(queues := b.queues[q := b.queues[q] - n],
       inbox := if reported then b.inbox + [Delivered(q, n)] else b.inbox)
  }

  function LetGo(b: Bridge, q: RequestId): Bridge {
    b.(queues := b.queues - {q})
  }

  function Step(b: Bridge, e: Event): Result<Bridge, ErrorCode>
    requires Enabled(b, e)
  {
    match e
    case Backend(s) => AfterUp(b, s)
    case Inbox =>
      var next :- AfterUp(b, Hears(b.inbox[0]));
      Ok(next.(inbox := b.inbox[1..]))
    case Arrives(i) => Ok(Arrive(b, i))
    case Asks(client, head, endStream) => Ok(Ask(b, client, head, endStream))
    case Says(m) => Ok(Say(b, m))
    case WritesOut(q, n, reported) => Ok(WriteOut(b, q, n, reported))
    case LetsGo(q) => Ok(LetGo(b, q))
  }

  // -------------------------------------------------------------------------
  // Where a request's octets are.
  // -------------------------------------------------------------------------

  /** Octets in events still on their way. */
  function InFlight(flying: seq<Act>, id: StreamId): nat {
    if flying == [] then 0
    else
      (if flying[0].Told? && flying[0].id == id && flying[0].event.BodyData? then |flying[0].event.data| else 0) +
      InFlight(flying[1..], id)
  }

  /** Octets written out whose report is still in the inbox. */
  function Reported(inbox: seq<Message>, q: RequestId): nat {
    if inbox == [] then 0
    else (if inbox[0].Delivered? && inbox[0].request == q then inbox[0].n else 0) + Reported(inbox[1..], q)
  }

  function Queued(queues: map<RequestId, nat>, q: RequestId): nat {
    if q in queues then queues[q] else 0
  }

  /** Everything of one response that is in this process. */
  function InMemory(b: Bridge, id: StreamId): nat
    requires id in b.up.routes
  {
    var q := b.up.routes[id].request;
    InFlight(b.flying, id) + Queued(b.queues, q) + Reported(b.inbox, q)
  }

  /** A request that is queued somewhere still asks for an unused identifier. */
  ghost predicate Unasked(b: Bridge) {
    && (forall i :: 0 <= i < |b.inbox| && b.inbox[i].Request? ==>
          Unseen(b.up, b.inbox[i].request) && b.inbox[i].request < b.issued)
    && (forall i, j :: 0 <= i < j < |b.inbox| && b.inbox[i].Request? && b.inbox[j].Request? ==>
          b.inbox[i].request != b.inbox[j].request)
    && (forall q: RequestId :: q >= b.issued ==> Unseen(b.up, q))
  }

  /** No octets belong to a request that has had no stream. */
  ghost predicate NothingEarly(b: Bridge) {
    && (forall q: RequestId :: Unopened(b.up, q) ==> Queued(b.queues, q) == 0 && Reported(b.inbox, q) == 0)
    && (forall a :: a in b.flying ==> a.Told? && Act.Opened(a.id, a.request, a.client) in b.up.acts)
  }

  /** Each route's octets in memory, and those that have come back, were sent on. */
  ghost predicate Bounded(b: Bridge) {
    forall id :: id in b.up.routes ==>
      InMemory(b, id) + Returned(b.tally.returned, id) <= DataTold(b.up.acts, id)
  }

  ghost predicate Covered(b: Bridge) {
    && Kept(b.up, b.tally.lost, b.tally.returned)
    && Unasked(b) && NothingEarly(b) && Bounded(b)
  }

  /** What a route holds covers its octets in memory. */
  lemma HeldCovers(b: Bridge, id: StreamId)
    requires Covered(b) && id in b.up.routes
    ensures InMemory(b, id) <= Held(b.up.routes[id])
  {
    hide DataTold, InFlight, Reported;
  }

  // -------------------------------------------------------------------------
  // Sums.
  // -------------------------------------------------------------------------

  lemma {:induction false} InFlightConcat(a: seq<Act>, b: seq<Act>, id: StreamId)
    ensures InFlight(a + b, id) == InFlight(a, id) + InFlight(b, id)
  {
    if a == [] {
      assert a + b == b;
    } else {
      assert (a + b)[1..] == a[1..] + b;
      InFlightConcat(a[1..], b, id);
    }
  }

  lemma {:induction false} InFlightWithout(s: seq<Act>, i: nat, id: StreamId)
    requires i < |s|
    ensures InFlight(s, id) ==
            InFlight(Without(s, i), id) +
            (if s[i].Told? && s[i].id == id && s[i].event.BodyData? then |s[i].event.data| else 0)
  {
    assert s == s[..i] + ([s[i]] + s[i + 1..]);
    assert ([s[i]] + s[i + 1..])[1..] == s[i + 1..];
    InFlightConcat(s[..i], [s[i]] + s[i + 1..], id);
    InFlightConcat(s[..i], s[i + 1..], id);
  }

  lemma {:induction false} ReportedSnoc(inbox: seq<Message>, m: Message, q: RequestId)
    ensures Reported(inbox + [m], q) == Reported(inbox, q) + (if m.Delivered? && m.request == q then m.n else 0)
  {
    if inbox == [] {
      assert [] + [m] == [m] && [m][1..] == [];
    } else {
      assert (inbox + [m])[1..] == inbox[1..] + [m];
      ReportedSnoc(inbox[1..], m, q);
    }
  }

  /** What is new in the record is what is newly on its way. */
  lemma {:induction false} NewsCounts(acts: seq<Act>, from: nat, id: StreamId)
    requires from <= |acts|
    ensures DataTold(acts, id) == DataTold(acts[..from], id) + InFlight(News(acts, from), id)
    ensures forall a :: a in News(acts, from) ==> a.Told? && a in acts
    decreases |acts|
  {
    if |acts| == from {
      assert acts[..from] == acts;
    } else {
      var past, last := acts[..|acts| - 1], acts[|acts| - 1];
      NewsCounts(past, from, id);
      assert past[..from] == acts[..from];
      InFlightConcat(News(past, from), if last.Told? then [last] else [], id);
      assert [last][1..] == [];
    }
  }

  // -------------------------------------------------------------------------
  // Steps of the upstream task.
  // -------------------------------------------------------------------------

  /** In an orderly record a stream opens once, and a request once. */
  lemma {:induction false} OpenedOnce(acts: seq<Act>, a: Act, b: Act)
    requires InOrder(acts) && a in acts && b in acts && a.Opened? && b.Opened?
    ensures a.id == b.id ==> a == b
    ensures a.request == b.request ==> a == b
    decreases |acts|
  {
    var past, last := acts[..|acts| - 1], acts[|acts| - 1];
    assert acts == past + [last];
    OpenedBelowLast(past);
    if a in past && b in past {
      OpenedOnce(past, a, b);
    }
  }

  /** An event in an orderly record names a stream, a request and a client that were
      opened together. */
  lemma {:induction false} ToldWasOpened(acts: seq<Act>, a: Act)
    requires InOrder(acts) && a in acts && a.Told?
    ensures Act.Opened(a.id, a.request, a.client) in acts
    decreases |acts|
  {
    var past, last := acts[..|acts| - 1], acts[|acts| - 1];
    assert acts == past + [last];
    if a in past {
      ToldWasOpened(past, a);
    }
  }

  lemma OpenedStays(u: Up, a: Act)
    requires Recorded(u) && a in u.acts && a.Opened? && Forgot(a.id) !in u.acts
    ensures a.id in u.routes
  {
  }

  /** A route after a step was there before, for the same request, or has just
      opened for a request that had no stream. */
  lemma RouteOrigin(u: Up, v: Up, id: StreamId)
    requires Recorded(u) && Recorded(v) && u.acts <= v.acts && id in v.routes
    ensures id in u.routes ==> v.routes[id].request == u.routes[id].request
    ensures id !in u.routes ==> id > u.streams.highestLocal && Unopened(u, v.routes[id].request)
  {
    hide LastOpened, OpenedIds, InOrder, Heads;
    var now := Act.Opened(id, v.routes[id].request, v.routes[id].client);
    assert now in v.acts;
    if id in u.routes {
      var before := Act.Opened(id, u.routes[id].request, u.routes[id].client);
      assert before in u.acts && before in v.acts;
      OpenedOnce(v.acts, now, before);
    } else {
      assert Forgot(id) !in u.acts;
      if now in u.acts {
        OpenedStays(u, now);
      }
      LateIsHigh(u.acts, v.acts, now);
    }
  }

  /** What is opened later has a higher identifier and another request. */
  lemma {:induction false} LateIsHigh(before: seq<Act>, after: seq<Act>, a: Act)
    requires before <= after && InOrder(after) && a in after && a !in before && a.Opened?
    ensures a.id > LastOpened(before) && forall b :: b in before && b.Opened? ==> b.request != a.request
    decreases |after|
  {
    var past, last := after[..|after| - 1], after[|after| - 1];
    assert after == past + [last];
    assert after[..|after|] == after;
    if |before| < |after| {
      assert before <= past;
      if a in past {
        LateIsHigh(before, past, a);
      } else {
        LastOpenedGrows(before, past);
        assert forall b :: b in before ==> b in past;
      }
    }
  }

  lemma {:induction false} LastOpenedGrows(before: seq<Act>, after: seq<Act>)
    requires before <= after && InOrder(after)
    ensures LastOpened(before) <= LastOpened(after)
    decreases |after|
  {
    if |before| == |after| {
      assert before == after;
    } else {
      var past := after[..|after| - 1];
      assert before <= past;
      LastOpenedGrows(before, past);
    }
  }

  /** The upstream task's own steps keep every route covered. */
  lemma NothingReturned(u: Up, t: Tally, id: StreamId)
    requires Kept(u, t.lost, t.returned) && id > u.streams.highestLocal
    ensures Returned(t.returned, id) == 0
  {
  }

  lemma NoNews(acts: seq<Act>)
    ensures News(acts, |acts|) == []
  {
  }

  lemma WaitingIsDistinct(u: Up)
    requires Mutual(u)
    ensures Distinct(u.pending)
  {
  }

  lemma WithoutIsWithin<T>(s: seq<T>, i: nat)
    requires i < |s|
    ensures forall x :: x in Without(s, i) ==> x in s
  {
  }

  lemma UpStepCovered(b: Bridge, v: Up, t: Tally, id: StreamId)
    requires Covered(b) && Kept(v, t.lost, t.returned) && b.up.acts <= v.acts && id in v.routes
    requires t.returned == b.tally.returned
    ensures var flying := b.flying + News(v.acts, |b.up.acts|);
            InFlight(flying, id) + Queued(b.queues, v.routes[id].request) + Reported(b.inbox, v.routes[id].request)
            + Returned(t.returned, id) <= DataTold(v.acts, id)
  {
    hide DataTold, InFlight, Reported, Accounted, Numbered, Mutual, News, LastOpened, OpenedIds, InOrder, Heads;
    var u := b.up;
    NewsCounts(v.acts, |u.acts|, id);
    assert v.acts[..|u.acts|] == u.acts;
    InFlightConcat(b.flying, News(v.acts, |u.acts|), id);
    RouteOrigin(u, v, id);
    if id in u.routes {
      assert InMemory(b, id) + Returned(t.returned, id) <= DataTold(u.acts, id);
    } else {
      OpenedBelowLast(u.acts);
      NoneInFlight(b, id);
      NothingReturned(u, b.tally, id);
    }
  }

  lemma {:induction false} NoneInFlight(b: Bridge, id: StreamId)
    requires NothingEarly(b) && InOrder(b.up.acts) && id > LastOpened(b.up.acts)
    ensures InFlight(b.flying, id) == 0
  {
    OpenedBelowLast(b.up.acts);
    forall a | a in b.flying
      ensures a.Told? && a.id != id
    {
      assert Act.Opened(a.id, a.request, a.client) in b.up.acts;
    }
    NoneOf(b.flying, id);
  }

  lemma {:induction false} NoneOf(flying: seq<Act>, id: StreamId)
    requires forall a :: a in flying ==> a.Told? && a.id != id
    ensures InFlight(flying, id) == 0
  {
    if flying != [] {
      assert flying[0] in flying;
      NoneOf(flying[1..], id);
    }
  }

  lemma BackendCovered(b: Bridge, s: UpStep)
    requires Covered(b) && !s.Hears? && Fits(b.up, s)
    ensures AfterUp(b, s).Ok? ==> Covered(AfterUp(b, s).value)
  {
    hide Advance, Kept, Unseen, DataTold, InFlight, Reported, News, Unopened;
    if Advance(b.up, s).Ok? {
      var v := Advance(b.up, s).value;
      var t := Tallied(b.tally, b.up, s);
      DoKept(b.up, s, b.tally);
      DoGrows(b.up, s);
      var d := AfterUp(b, s).value;
      forall id | id in d.up.routes
        ensures InMemory(d, id) + Returned(d.tally.returned, id) <= DataTold(d.up.acts, id)
      {
        UpStepCovered(b, v, t, id);
      }
      assert Unasked(d);
      NothingEarlier(b, d);
    }
  }

  /** Nothing that was without a stream before has octets now. */
  lemma NothingEarlier(b: Bridge, d: Bridge)
    requires NothingEarly(b) && b.up.acts <= d.up.acts && Kept(d.up, d.tally.lost, d.tally.returned)
    requires d.queues == b.queues && d.flying == b.flying + News(d.up.acts, |b.up.acts|)
    requires forall q :: Reported(d.inbox, q) <= Reported(b.inbox, q)
    ensures NothingEarly(d)
  {
    hide Reported, InFlight, DataTold, News, Accounted, Numbered, Mutual, LastOpened, OpenedIds, InOrder, Heads;
    forall q: RequestId | Unopened(d.up, q)
      ensures Queued(d.queues, q) == 0 && Reported(d.inbox, q) == 0
    {
      assert Unopened(b.up, q);
    }
    NewsCounts(d.up.acts, |b.up.acts|, 0);
    forall a | a in d.flying
      ensures a.Told? && Act.Opened(a.id, a.request, a.client) in d.up.acts
    {
      if a in b.flying {
        assert Act.Opened(a.id, a.request, a.client) in b.up.acts;
      } else {
        ToldWasOpened(d.up.acts, a);
      }
    }
  }

  // -------------------------------------------------------------------------
  // Steps of the inbox.
  // -------------------------------------------------------------------------

  /** Clients ask for nothing they may not, and report no more than they hold. */
  lemma InboxIsHonest(b: Bridge)
    requires Covered(b) && b.inbox != []
    ensures Honest(b.up, b.inbox[0])
  {
    hide DataTold, InFlight, Recorded, Accounted, Numbered;
    var m := b.inbox[0];
    if m.Delivered? && m.request in b.up.requests {
      var id := b.up.requests[m.request];
      assert id in b.up.routes && b.up.routes[id].request == m.request;
      HeldCovers(b, id);
    }
  }

  lemma ReleaseShape(u: Up, id: StreamId, n: U32)
    requires id in u.routes
    ensures var v := Release(u, id, n);
            && v.acts == u.acts && v.pending == u.pending && v.routes.Keys == u.routes.Keys
            && forall j :: j in u.routes ==> v.routes[j].request == u.routes[j].request
  {
    hide Receive.Release;
  }

  /** A report handled: the octets have come back instead of being on their way. */
  lemma DeliveredCovered(b: Bridge, d: Bridge)
    requires Covered(b) && b.inbox != [] && b.inbox[0].Delivered?
    requires Step(b, Inbox) == Ok(d)
    ensures Bounded(d) && d.up.acts == b.up.acts && d.up.pending == b.up.pending
  {
    hide DataTold, InFlight, Recorded, Accounted, Numbered, Receive.Release, Release, News;
    var q, n := b.inbox[0].request, b.inbox[0].n;
    if q in b.up.requests {
      ReleaseShape(b.up, b.up.requests[q], n);
    }
    NoNews(d.up.acts);
    assert b.flying + [] == b.flying;
    forall id | id in d.up.routes
      ensures InMemory(d, id) + Returned(d.tally.returned, id) <= DataTold(d.up.acts, id)
    {
      assert InMemory(b, id) + Returned(b.tally.returned, id) <= DataTold(b.up.acts, id);
    }
  }

  lemma InboxCovered(b: Bridge)
    requires Covered(b) && b.inbox != []
    ensures Step(b, Inbox).Ok? && Covered(Step(b, Inbox).value)
  {
    hide OnMessage, Mutual, Numbered, Recorded, Accounted, Unseen, DataTold, InFlight, News, Unopened, Honest;
    var m := b.inbox[0];
    var d := Step(b, Inbox).value;
    InboxIsHonest(b);
    DoKept(b.up, Hears(m), b.tally);
    WaitingIsDistinct(b.up);
    OnMessageGrows(b.up, m);
    if m.Delivered? {
      DeliveredCovered(b, d);
    } else {
      forall id | id in d.up.routes
        ensures InMemory(d, id) + Returned(d.tally.returned, id) <= DataTold(d.up.acts, id)
      {
        UpStepCovered(b, d.up, d.tally, id);
      }
    }
    InboxUnasked(b, d, m);
    NothingEarlier(b, d);
  }

  /** Requests still in the inbox are still unseen once the first is handled. */
  lemma InboxUnasked(b: Bridge, d: Bridge, m: Message)
    requires Unasked(b) && b.inbox != [] && m == b.inbox[0] && d.inbox == b.inbox[1..] && d.issued == b.issued
    requires forall q: RequestId :: (m.Request? ==> q != m.request) && Unseen(b.up, q) ==> Unseen(d.up, q)
    ensures Unasked(d)
  {
    hide Unseen;
    forall i | 0 <= i < |d.inbox| && d.inbox[i].Request?
      ensures Unseen(d.up, d.inbox[i].request) && d.inbox[i].request < d.issued
    {
      assert d.inbox[i] == b.inbox[i + 1];
    }
    forall i, j | 0 <= i < j < |d.inbox| && d.inbox[i].Request? && d.inbox[j].Request?
      ensures d.inbox[i].request != d.inbox[j].request
    {
      assert d.inbox[i] == b.inbox[i + 1] && d.inbox[j] == b.inbox[j + 1];
    }
  }

  // -------------------------------------------------------------------------
  // Steps of the clients and the channels.
  // -------------------------------------------------------------------------

  lemma ArrivesCovered(b: Bridge, i: nat)
    requires Covered(b) && MayArrive(b, i)
    ensures Covered(Arrive(b, i))
  {
    hide DataTold, InFlight, Reported, Accounted, Numbered, Mutual, LastOpened, OpenedIds, InOrder, Heads, Without, Unseen;
    var a, d := b.flying[i], Arrive(b, i);
    var origin := Act.Opened(a.id, a.request, a.client);
    assert a in b.flying && origin in b.up.acts;
    forall id | id in d.up.routes
      ensures InMemory(d, id) + Returned(d.tally.returned, id) <= DataTold(d.up.acts, id)
    {
      InFlightWithout(b.flying, i, id);
      assert InMemory(b, id) + Returned(b.tally.returned, id) <= DataTold(b.up.acts, id);
      OpenedOnce(b.up.acts, origin, Act.Opened(id, b.up.routes[id].request, b.up.routes[id].client));
    }
    WithoutIsWithin(b.flying, i);
    assert NothingEarly(d);
  }

  /** A message that neither asks nor reports changes nobody's account. */
  lemma SaysCovered(b: Bridge, m: Message)
    requires Covered(b) && !m.Request? && !m.Delivered?
    ensures Covered(Say(b, m))
  {
    hide DataTold, InFlight, Reported, Kept, Unseen, Unopened;
    var d := Say(b, m);
    forall q
      ensures Reported(d.inbox, q) == Reported(b.inbox, q)
    {
      ReportedSnoc(b.inbox, m, q);
    }
    forall id | id in d.up.routes
      ensures InMemory(d, id) + Returned(d.tally.returned, id) <= DataTold(d.up.acts, id)
    {
      assert InMemory(b, id) + Returned(b.tally.returned, id) <= DataTold(b.up.acts, id);
    }
  }

  lemma AsksCovered(b: Bridge, client: Client, head: seq<HpackHeader>, endStream: bool)
    requires Covered(b)
    ensures Covered(Ask(b, client, head, endStream))
  {
    hide DataTold, InFlight, Reported, Kept, Unopened;
    var d := Ask(b, client, head, endStream);
    var m := Request(b.issued, client, head, endStream);
    assert Unseen(b.up, b.issued);
    assert Queued(b.queues, b.issued) == 0;
    forall q
      ensures Reported(d.inbox, q) == Reported(b.inbox, q) && Queued(d.queues, q) == Queued(b.queues, q)
    {
      ReportedSnoc(b.inbox, m, q);
    }
    forall id | id in d.up.routes
      ensures InMemory(d, id) + Returned(d.tally.returned, id) <= DataTold(d.up.acts, id)
    {
      assert InMemory(b, id) + Returned(b.tally.returned, id) <= DataTold(b.up.acts, id);
    }
  }

  lemma WritesOutCovered(b: Bridge, q: RequestId, n: U32, reported: bool)
    requires Covered(b) && q in b.queues && 0 < n <= b.queues[q]
    ensures Covered(WriteOut(b, q, n, reported))
  {
    hide DataTold, InFlight, Reported, Kept, Unseen, Unopened;
    var d := WriteOut(b, q, n, reported);
    forall r
      ensures Reported(d.inbox, r) == Reported(b.inbox, r) + (if reported && r == q then n else 0)
      ensures Queued(d.queues, r) + (if r == q then n else 0) == Queued(b.queues, r)
    {
      ReportedSnoc(b.inbox, Delivered(q, n), r);
    }
    assert Queued(b.queues, q) > 0;
    forall id | id in d.up.routes
      ensures InMemory(d, id) + Returned(d.tally.returned, id) <= DataTold(d.up.acts, id)
    {
      assert InMemory(b, id) + Returned(b.tally.returned, id) <= DataTold(b.up.acts, id);
    }
  }

  lemma LetsGoCovered(b: Bridge, q: RequestId)
    requires Covered(b)
    ensures Covered(LetGo(b, q))
  {
    hide DataTold, InFlight, Reported, Kept, Unseen, Unopened;
    var d := LetGo(b, q);
    assert forall r :: Queued(d.queues, r) <= Queued(b.queues, r);
    forall id | id in d.up.routes
      ensures InMemory(d, id) + Returned(d.tally.returned, id) <= DataTold(d.up.acts, id)
    {
      assert InMemory(b, id) + Returned(b.tally.returned, id) <= DataTold(b.up.acts, id);
    }
  }

  lemma StepCovered(b: Bridge, e: Event)
    requires Covered(b) && Enabled(b, e)
    ensures Step(b, e).Ok? ==> Covered(Step(b, e).value)
  {
    hide Covered, AfterUp;
    match e
    case Backend(s) => BackendCovered(b, s);
    case Inbox => InboxCovered(b);
    case Arrives(i) => ArrivesCovered(b, i);
    case Asks(client, head, endStream) => AsksCovered(b, client, head, endStream);
    case Says(m) => SaysCovered(b, m);
    case WritesOut(q, n, reported) => WritesOutCovered(b, q, n, reported);
    case LetsGo(q) => LetsGoCovered(b, q);
  }

  // -------------------------------------------------------------------------
  // Whole runs.
  // -------------------------------------------------------------------------

  ghost predicate Possible(b: Bridge, events: seq<Event>)
    decreases |events|
  {
    events == [] ||
    (Enabled(b, events[0]) && (Step(b, events[0]).Ok? ==> Possible(Step(b, events[0]).value, events[1..])))
  }

  ghost function Run(b: Bridge, events: seq<Event>): Result<Bridge, ErrorCode>
    requires Possible(b, events)
    decreases |events|
  {
    if events == [] then Ok(b)
    else
      var next :- Step(b, events[0]);
      Run(next, events[1..])
  }

  lemma {:induction false} AlwaysCovered(b: Bridge, events: seq<Event>)
    requires Covered(b) && Possible(b, events)
    ensures Run(b, events).Ok? ==> Covered(Run(b, events).value)
    decreases |events|
  {
    if events != [] {
      hide Covered, Step, Enabled;
      StepCovered(b, events[0]);
      if Step(b, events[0]).Ok? {
        AlwaysCovered(Step(b, events[0]).value, events[1..]);
      }
    }
  }

  function NewBridge(maxPending: nat, window: CL.WindowSize, streamWindow: CL.WindowSize): Bridge {
    Bridge(NewUp(maxPending, window, streamWindow), Tally(0, Returns(map[], window)), [], [], map[], 0)
  }

  lemma NewBridgeCovered(maxPending: nat, window: CL.WindowSize, streamWindow: CL.WindowSize)
    ensures Covered(NewBridge(maxPending, window, streamWindow))
  {
    NewUpKept(maxPending, window, streamWindow);
  }

  /** Octets in memory of every response the backend has not finished. */
  ghost function Unfinished(b: Bridge): nat {
    Total(map id | id in b.up.routes :: InMemory(b, id), (n: nat) => n)
  }

  /** What being covered says of the whole process. */
  lemma CoveredMeans(b: Bridge)
    requires Covered(b)
    ensures forall id :: id in b.up.routes ==> InMemory(b, id) <= Held(b.up.routes[id])
    ensures b.up.connRecv.window.available + b.up.connRecv.unreleased + Total(b.up.routes, Held) + b.tally.lost
            == b.tally.returned.window
    ensures Unfinished(b) <= b.tally.returned.window
  {
    hide Total, InMemory, Mutual, Numbered, Recorded, Unasked, NothingEarly, Bounded;
    forall id | id in b.up.routes
      ensures InMemory(b, id) <= Held(b.up.routes[id])
    {
      HeldCovers(b, id);
    }
    TotalBelow(map id | id in b.up.routes :: InMemory(b, id), b.up.routes, (n: nat) => n, Held);
  }

  /** Over every interleaving of upstream task, clients and channels: each route
      holds at least the credit for its octets in memory, and the octets of all
      responses whose end has not arrived are never more than one upstream window. */
  lemma {:induction false} MemoryIsBounded(maxPending: nat, window: CL.WindowSize, streamWindow: CL.WindowSize, events: seq<Event>)
    requires Possible(NewBridge(maxPending, window, streamWindow), events)
    ensures var r := Run(NewBridge(maxPending, window, streamWindow), events);
            r.Ok? ==>
              var b := r.value;
              && (forall id :: id in b.up.routes ==> InMemory(b, id) <= Held(b.up.routes[id]))
              && b.up.connRecv.window.available + b.up.connRecv.unreleased + Total(b.up.routes, Held) + b.tally.lost == window
              && Unfinished(b) <= window
  {
    hide Run, Possible, Total, InMemory, Covered, Unfinished, Held;
    var b := NewBridge(maxPending, window, streamWindow);
    NewBridgeCovered(maxPending, window, streamWindow);
    AlwaysCovered(b, events);
    WindowKept(b, events);
    if Run(b, events).Ok? {
      CoveredMeans(Run(b, events).value);
    }
  }

  /** The tally remembers the size the window was opened to. */
  lemma {:induction false} WindowKept(b: Bridge, events: seq<Event>)
    requires Possible(b, events)
    ensures Run(b, events).Ok? ==> Run(b, events).value.tally.returned.window == b.tally.returned.window
    decreases |events|
  {
    if events != [] && Step(b, events[0]).Ok? {
      hide Advance, News;
      WindowKept(Step(b, events[0]).value, events[1..]);
    }
  }
}
