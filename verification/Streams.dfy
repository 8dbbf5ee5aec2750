/** The life of a stream (RFC 9113 section 5.1) and the table of those alive:
    how identifiers are admitted, how a closed one is told from one never opened,
    and where the credit a finished stream was holding goes. */
module Streams {
  import opened Octets
  import opened Frame
  import opened Flow
  import opened HpackCodec

  datatype StreamState = Idle | Open | HalfClosedLocal | HalfClosedRemote | Closed {

    predicate PeerCanSend() {
      Open? || HalfClosedLocal?
    }
  }

  datatype StreamEvent =
    | SendHeaders(endStream: bool)
    | RecvHeaders(endStream: bool)
    | SendData(endStream: bool)
    | RecvData(endStream: bool)
    | SendRstStream
    | RecvRstStream
  {
    predicate IsHeaders() {
      SendHeaders? || RecvHeaders?
    }

    predicate IsReset() {
      SendRstStream? || RecvRstStream?
    }

    predicate Outgoing() {
      SendHeaders? || SendData?
    }

    predicate Incoming() {
      RecvHeaders? || RecvData?
    }

    predicate Ends() {
      !IsReset() && endStream
    }
  }

  function Transition(state: StreamState, event: StreamEvent): Result<StreamState, ErrorCode> {
    match (state, event)
    case (Idle, SendHeaders(end)) => Ok(if end then HalfClosedLocal else Open)
    case (Idle, RecvHeaders(end)) => Ok(if end then HalfClosedRemote else Open)
    case (Idle, _) => Err(ProtocolError)
    case (_, SendRstStream) => Ok(Closed)
    case (_, RecvRstStream) => Ok(Closed)
    case (Open, SendHeaders(end)) => Ok(if end then HalfClosedLocal else Open)
    case (Open, SendData(end)) => Ok(if end then HalfClosedLocal else Open)
    case (Open, RecvHeaders(end)) => Ok(if end then HalfClosedRemote else Open)
    case (Open, RecvData(end)) => Ok(if end then HalfClosedRemote else Open)
    case (HalfClosedLocal, RecvHeaders(end)) => Ok(if end then Closed else HalfClosedLocal)
    case (HalfClosedLocal, RecvData(end)) => Ok(if end then Closed else HalfClosedLocal)
    case (HalfClosedLocal, _) => Err(StreamClosed)
    case (HalfClosedRemote, SendHeaders(end)) => Ok(if end then Closed else HalfClosedRemote)
    case (HalfClosedRemote, SendData(end)) => Ok(if end then Closed else HalfClosedRemote)
    case (HalfClosedRemote, _) => Err(StreamClosed)
    case (Closed, _) => Err(StreamClosed)
  }

  // -------------------------------------------------------------------------
  // The states are a summary of what has happened.
  // -------------------------------------------------------------------------

  /** The state after a history of events, each of which was accepted. */
  function After(history: seq<StreamEvent>): Result<StreamState, ErrorCode>
    decreases |history|
  {
    if history == [] then Ok(Idle)
    else
      match After(history[..|history| - 1])
      case Err(e) => Err(e)
      case Ok(s) => Transition(s, history[|history| - 1])
  }

  ghost predicate WeEnded(history: seq<StreamEvent>) {
    exists e :: e in history && e.Outgoing() && e.Ends()
  }

  ghost predicate PeerEnded(history: seq<StreamEvent>) {
    exists e :: e in history && e.Incoming() && e.Ends()
  }

  ghost predicate WasReset(history: seq<StreamEvent>) {
    exists e :: e in history && e.IsReset()
  }

  /** What the state ought to be, from who has ended and whether there was a reset. */
  function Summary(began: bool, weEnded: bool, peerEnded: bool, reset: bool): StreamState {
    if !began then Idle
    else if reset || (weEnded && peerEnded) then Closed
    else if weEnded then HalfClosedLocal
    else if peerEnded then HalfClosedRemote
    else Open
  }

  /** What may come next: HEADERS first, then anything in a direction that has
      not ended, a reset at any time, and nothing but a reset after a reset. */
  predicate Permitted(began: bool, weEnded: bool, peerEnded: bool, reset: bool, e: StreamEvent) {
    if !began then e.IsHeaders()
    else e.IsReset() || (!reset && !(if e.Outgoing() then weEnded else peerEnded))
  }

  lemma SummaryStep(began: bool, weEnded: bool, peerEnded: bool, reset: bool, e: StreamEvent)
    requires !began ==> !weEnded && !peerEnded && !reset
    ensures var r := Transition(Summary(began, weEnded, peerEnded, reset), e);
            && (r.Ok? <==> Permitted(began, weEnded, peerEnded, reset, e))
            && (r.Err? ==> r.error == (if began then StreamClosed else ProtocolError))
            && (r.Ok? ==> r.value == Summary(true, weEnded || (e.Outgoing() && e.Ends()),
                                             peerEnded || (e.Incoming() && e.Ends()), reset || e.IsReset()))
  {
  }

  lemma HistoryGrows(past: seq<StreamEvent>, last: StreamEvent)
    ensures WeEnded(past + [last]) <==> WeEnded(past) || (last.Outgoing() && last.Ends())
    ensures PeerEnded(past + [last]) <==> PeerEnded(past) || (last.Incoming() && last.Ends())
    ensures WasReset(past + [last]) <==> WasReset(past) || last.IsReset()
  {
    assert forall x :: x in past + [last] <==> x in past || x == last;
  }

  /** The five states carry exactly what the protocol's rules need of the past. */
  lemma {:induction false} StateIsSummary(history: seq<StreamEvent>, e: StreamEvent)
    requires After(history).Ok?
    ensures After(history).value == Summary(history != [], WeEnded(history), PeerEnded(history), WasReset(history))
    ensures var r := Transition(After(history).value, e);
            && (r.Ok? <==> Permitted(history != [], WeEnded(history), PeerEnded(history), WasReset(history), e))
            && (r.Err? ==> r.error == (if history == [] then ProtocolError else StreamClosed))
    decreases |history|
  {
    hide Transition, Summary, Permitted, WeEnded, PeerEnded, WasReset;
    NothingYet();
    if history == [] {
      SummaryStep(false, false, false, false, e);
      IdleSummary();
    } else {
      var past, last := history[..|history| - 1], history[|history| - 1];
      assert history == past + [last];
      StateIsSummary(past, last);
      HistoryGrows(past, last);
      SummaryStep(past != [], WeEnded(past), PeerEnded(past), WasReset(past), last);
      SummaryStep(true, WeEnded(history), PeerEnded(history), WasReset(history), e);
    }
  }

  lemma IdleSummary()
    ensures Summary(false, false, false, false) == Idle
  {
  }

  lemma NothingYet()
    ensures !WeEnded([]) && !PeerEnded([]) && !WasReset([])
  {
  }

  // -------------------------------------------------------------------------
  // One stream.
  // -------------------------------------------------------------------------

  datatype Stream = Stream(
    state: StreamState,
    sendWindow: Window,
    recvWindow: Receive,
    sendQueue: seq<seq<Octet>>,
    sendEndStream: bool,
    pendingTrailers: Option<seq<Header>>,
    queued: bool,
    responseStarted: bool,
    contentLength: Option<nat>,
    dataReceived: nat,
    pendingConnRelease: U32)
  {
    predicate ContentLengthMatches() {
      contentLength.None? || contentLength.value == dataReceived
    }

    function PendingSend(): nat {
      QueuedOctets(sendQueue)
    }

    predicate HasPendingSend() {
      sendQueue != [] || sendEndStream || pendingTrailers.Some?
    }

    function WindowMoved(delta: I32): Option<Stream> {
      match sendWindow.ApplyDelta(delta)
      case None => None
      case Some(w) => Some(this.(sendWindow := w))
    }
  }

  function QueuedOctets(queue: seq<seq<Octet>>): nat {
    if queue == [] then 0 else |queue[0]| + QueuedOctets(queue[1..])
  }

  function NewStream(sendWindow: I32, recvWindow: I32): Stream {
    Stream(Idle, Window(sendWindow), Opened(recvWindow), [], false, None, false, false, None, 0, 0)
  }

  // -------------------------------------------------------------------------
  // The table.
  // -------------------------------------------------------------------------

  datatype OpenRejection = Protocol | Refused

  datatype Lookup = Live(stream: Stream) | WasClosed | NeverOpened

  predicate ClientInitiated(id: StreamId) {
    id != 0 && id % 2 == 1
  }

  function SaturatingI32(n: int): I32 {
    if n > I32_MAX then I32_MAX else if n < I32_MIN then I32_MIN else n
  }

  datatype Table = Table(
    live: map<StreamId, Stream>,
    highestPeer: StreamId,
    highestLocal: StreamId,
    maxConcurrent: U32,
    initialSend: I32,
    initialRecv: I32,
    reclaimed: U32)
  {
    function Highest(): StreamId {
      Max(highestPeer, highestLocal)
    }

    /** A stream the peer opens. A refused one still moves the mark. */
    function OpenPeer(id: StreamId): (Table, Result<(), OpenRejection>) {
      if !ClientInitiated(id) || id <= highestPeer then (this, Err(Protocol))
      else if |live| >= maxConcurrent then (this.(highestPeer := id), Err(Refused))
      else (this.(highestPeer := id, live := live[id := NewStream(initialSend, initialRecv)]), Ok(()))
    }

    /** A stream we open. A refused one leaves everything alone. */
    function OpenLocal(id: StreamId): (Table, Result<(), OpenRejection>) {
      if !ClientInitiated(id) || id <= highestLocal then (this, Err(Protocol))
      else if |live| >= maxConcurrent then (this, Err(Refused))
      else (this.(highestLocal := id, live := live[id := NewStream(initialSend, initialRecv)]), Ok(()))
    }

    function Find(id: StreamId): Lookup {
      if id in live then Live(live[id])
      else if id <= Highest() then WasClosed
      else NeverOpened
    }

    function Retire(id: StreamId): Table {
      if id in live then
        this.(live := live - {id}, reclaimed := SaturatingAdd(reclaimed, live[id].pendingConnRelease))
      else this
    }

    /** The new table and the state reached. An illegal event changes nothing. */
    function Apply(id: StreamId, event: StreamEvent): (Table, Result<StreamState, ErrorCode>) {
      if id !in live then (this, Err(if id <= Highest() then StreamClosed else ProtocolError))
      else
        match Transition(live[id].state, event)
        case Err(code) => (this, Err(code))
        case Ok(next) =>
          var moved := this.(live := live[id := live[id].(state := next)]);
          (if next.Closed? then moved.Retire(id) else moved, Ok(next))
    }

    function TakeReclaimed(): (Table, U32) {
      (this.(reclaimed := 0), reclaimed)
    }

    function Put(id: StreamId, s: Stream): Table
      requires id in live
    {
      this.(live := live[id := s])
    }

    /** Every live send window moved by `delta`, unless one would overflow. */
    function ApplyInitialWindowDelta(delta: I32): Option<Table> {
      if forall id :: id in live ==> live[id].WindowMoved(delta).Some? then
        Some(this.(initialSend := SaturatingI32(initialSend + delta),
                   live := map id | id in live :: live[id].WindowMoved(delta).value))
      else None
    }
  }

  function NewTable(maxConcurrent: U32, initialSend: I32, initialRecv: I32): Table {
    Table(map[], 0, 0, maxConcurrent, initialSend, initialRecv, 0)
  }

  // -------------------------------------------------------------------------
  // Identifiers over a connection.
  // -------------------------------------------------------------------------

  /** Everything the connection does to its table. One end opens streams, so a
      connection uses one of the two ways of opening and never the other. */
  datatype TableOp =
    | Opens(id: StreamId)
    | Advances(id: StreamId, event: StreamEvent)
    | Retires(id: StreamId)
    | Update(id: StreamId, stream: Stream)
    | SetMaxConcurrent(max: U32)
    | MoveWindows(delta: I32)
    | Reclaim

  datatype Opener = ByPeer | ByUs

  function Do(t: Table, opener: Opener, op: TableOp): Table {
    match op
    case Opens(id) => if opener.ByPeer? then t.OpenPeer(id).0 else t.OpenLocal(id).0
    case Advances(id, event) => t.Apply(id, event).0
    case Retires(id) => t.Retire(id)
    case Update(id, stream) => if id in t.live then t.Put(id, stream) else t
    case SetMaxConcurrent(max) => t.(maxConcurrent := max)
    case MoveWindows(delta) =>
      var moved := t.ApplyInitialWindowDelta(delta);
      if moved.Some? then moved.value else t
    case Reclaim => t.TakeReclaimed().0
  }

  function DoAll(t: Table, opener: Opener, ops: seq<TableOp>): Table
    decreases |ops|
  {
    if ops == [] then t else DoAll(Do(t, opener, ops[0]), opener, ops[1..])
  }

  /** The identifiers whose opening succeeded, in order. */
  function OpenedBy(t: Table, opener: Opener, ops: seq<TableOp>): seq<StreamId>
    decreases |ops|
  {
    if ops == [] then []
    else
      var next := Do(t, opener, ops[0]);
      (if ops[0].Opens? && ops[0].id !in t.live && ops[0].id in next.live then [ops[0].id] else []) +
      OpenedBy(next, opener, ops[1..])
  }

  /** Live identifiers are the opener's, and at or below the mark. */
  ghost predicate Marked(t: Table, opener: Opener) {
    && (if opener.ByPeer? then t.highestLocal == 0 else t.highestPeer == 0)
    && forall id :: id in t.live ==> ClientInitiated(id) && id <= t.Highest()
  }

  lemma DoMarked(t: Table, opener: Opener, op: TableOp)
    requires Marked(t, opener)
    ensures var next := Do(t, opener, op);
            && Marked(next, opener) && t.Highest() <= next.Highest()
            && (forall id :: id in next.live && id !in t.live ==> t.Highest() < id && op == Opens(id))
  {
  }

  /** An identifier that has been passed and is not live never comes to life again,
      whatever is done to the table: closed can be told from idle with no record
      kept of streams that are gone. */
  lemma {:induction false} ClosedForGood(t: Table, opener: Opener, ops: seq<TableOp>, id: StreamId)
    requires Marked(t, opener) && t.Find(id) == WasClosed
    ensures DoAll(t, opener, ops).Find(id) == WasClosed
    decreases |ops|
  {
    if ops != [] {
      hide Do;
      DoMarked(t, opener, ops[0]);
      ClosedForGood(Do(t, opener, ops[0]), opener, ops[1..], id);
    }
  }

  ghost predicate StrictlyIncreasing(s: seq<StreamId>, above: StreamId) {
    (forall i :: 0 <= i < |s| ==> above < s[i] && ClientInitiated(s[i])) &&
    forall i, j :: 0 <= i < j < |s| ==> s[i] < s[j]
  }

  /** Streams open with strictly increasing odd identifiers over a whole run. */
  lemma {:induction false} OpeningsIncrease(t: Table, opener: Opener, ops: seq<TableOp>)
    requires Marked(t, opener)
    ensures StrictlyIncreasing(OpenedBy(t, opener, ops), t.Highest())
    decreases |ops|
  {
    if ops != [] {
      var next := Do(t, opener, ops[0]);
      DoMarked(t, opener, ops[0]);
      OpeningsIncrease(next, opener, ops[1..]);
      if ops[0].Opens? && ops[0].id !in t.live && ops[0].id in next.live {
        assert ops[0].id == next.Highest();
      }
    }
  }

  // -------------------------------------------------------------------------
  // The table as it is kept.
  // -------------------------------------------------------------------------

  class StreamTable {
    var live: map<StreamId, Stream>
    var highestPeerId: StreamId
    var highestLocalId: StreamId
    var maxConcurrent: U32
    var initialSendWindow: I32
    var initialRecvWindow: I32
    var reclaimed: U32

    ghost function State(): Table
      reads this
    {
      Table(live, highestPeerId, highestLocalId, maxConcurrent, initialSendWindow, initialRecvWindow, reclaimed)
    }

    constructor (max: U32, initialSend: I32, initialRecv: I32)
      ensures State() == NewTable(max, initialSend, initialRecv)
    {
      live := map[];
      highestPeerId, highestLocalId := 0, 0;
      maxConcurrent, initialSendWindow, initialRecvWindow, reclaimed := max, initialSend, initialRecv, 0;
    }

    method OpenPeer(id: StreamId) returns (r: Result<(), OpenRejection>)
      modifies this
      ensures (State(), r) == old(State()).OpenPeer(id)
    {
      if !ClientInitiated(id) {
        return Err(Protocol);
      }
      if id <= highestPeerId {
        return Err(Protocol);
      }
      if |live| >= maxConcurrent {
        highestPeerId := id;
        return Err(Refused);
      }
      highestPeerId := id;
      live := live[id := NewStream(initialSendWindow, initialRecvWindow)];
      return Ok(());
    }

    method OpenLocal(id: StreamId) returns (r: Result<(), OpenRejection>)
      modifies this
      ensures (State(), r) == old(State()).OpenLocal(id)
    {
      if !ClientInitiated(id) || id <= highestLocalId {
        return Err(Protocol);
      }
      if |live| >= maxConcurrent {
        return Err(Refused);
      }
      highestLocalId := id;
      live := live[id := NewStream(initialSendWindow, initialRecvWindow)];
      return Ok(());
    }

    method Retire(id: StreamId)
      modifies this
      ensures State() == old(State()).Retire(id)
    {
      if id in live {
        reclaimed := SaturatingAdd(reclaimed, live[id].pendingConnRelease);
        live := live - {id};
      }
    }

    method Apply(id: StreamId, event: StreamEvent) returns (r: Result<StreamState, ErrorCode>)
      modifies this
      ensures (State(), r) == old(State()).Apply(id, event)
    {
      if id !in live {
        return Err(if id <= Max(highestPeerId, highestLocalId) then StreamClosed else ProtocolError);
      }
      var next := Transition(live[id].state, event);
      if next.Err? {
        return next;
      }
      live := live[id := live[id].(state := next.value)];
      if next.value.Closed? {
        Retire(id);
      }
      return next;
    }

    method TakeReclaimed() returns (n: U32)
      modifies this
      ensures (State(), n) == old(State()).TakeReclaimed()
    {
      n := reclaimed;
      reclaimed := 0;
    }

    /** Visits the live streams in no particular order and gives up at the first
        window that would overflow. */
    method ApplyInitialWindowDelta(delta: I32) returns (ok: bool)
      modifies `live, `initialSendWindow
      ensures ok <==> old(State()).ApplyInitialWindowDelta(delta).Some?
      ensures ok ==> State() == old(State()).ApplyInitialWindowDelta(delta).value
    {
      hide Stream.WindowMoved;
      ghost var t := State();
      ghost var was := live;
      initialSendWindow := SaturatingI32(initialSendWindow + delta);
      var todo := live.Keys;
      while todo != {}
        invariant initialSendWindow == SaturatingI32(t.initialSend + delta)
        invariant todo <= live.Keys == was.Keys
        invariant forall id :: id in todo ==> live[id] == was[id]
        invariant forall id :: id in live && id !in todo ==> was[id].WindowMoved(delta) == Some(live[id])
        decreases |todo|
      {
        var id :| id in todo;
        var moved := live[id].WindowMoved(delta);
        if moved.None? {
          return false;
        }
        live := live[id := moved.value];
        todo := todo - {id};
      }
      ok := true;
      assert live == t.ApplyInitialWindowDelta(delta).value.live;
    }
  }
}
