/** Whole runs of a client connection: everything that can happen to it, in any
    order, and the bookkeeping that survives all of it. */
module ClientRuns {
  import opened Octets
  import opened Frame
  import opened Flow
  import HpackTable
  import opened HpackCodec
  import opened Streams
  import opened ClientLeg
  import opened Ring
  import opened Sums
  import opened Scheduler

  datatype Stimulus =
    | FromService(event: ServiceEvent)
    | RequestArrives(id: StreamId, fields: seq<Header>, endStream: bool, checked: Checked)
    | OversizedArrives(id: StreamId)
    | DataArrives(id: StreamId, data: seq<Octet>, endStream: bool)
    | ResetArrives(id: StreamId)
    | CreditArrives(id: StreamId, increment: U32)
    | SettingsArrive(params: seq<Param>)
    | WriterRuns
    | SocketTakes(n: nat)
    | LimitMoves(max: U32)
    | DrainCommits

  predicate Fits(s: Stimulus) {
    s.DataArrives? ==> |s.data| < U32_LIMIT
  }

  function Step(c: Conn, s: Stimulus): Progress
    requires Sound(c) && Fits(s)
  {
    match s
    case FromService(event) => OnService(c, event)
    case RequestArrives(id, fields, endStream, checked) => OnRequest(c, id, fields, endStream, checked)
    case OversizedArrives(id) => RejectStream(c, id, StatusOnly(4, 3, 1))
    case DataArrives(id, data, endStream) => OnData(c, id, data, endStream)
    case ResetArrives(id) => OnRst(c, id)
    case CreditArrives(id, increment) => OnWindowUpdate(c, id, increment)
    case SettingsArrive(params) => OnSettings(c, params)
    case WriterRuns => Pump(c)
    case SocketTakes(n) => Ok(c.(outLen := if n > c.outLen then 0 else c.outLen - n))
    case LimitMoves(max) => Ok(c.(streams := c.streams.(maxConcurrent := max)))
    case DrainCommits => Queue(c.(drainCommitted := true), GoAway(c.streams.highestPeer, NoError, []))
  }

  /** The stream a stimulus is about; the connection for those about none. */
  function About(s: Stimulus): StreamId {
    match s
    case FromService(event) => event.id
    case RequestArrives(id, _, _, _) => id
    case OversizedArrives(id) => id
    case DataArrives(id, _, _) => id
    case ResetArrives(id) => id
    case CreditArrives(id, _) => id
    case _ => CONNECTION
  }

  /** Stimuli that concern the connection and not one stream. */
  predicate Wide(s: Stimulus) {
    s.SettingsArrive? || s.WriterRuns? || (s.CreditArrives? && s.id == CONNECTION && s.increment != 0)
  }

  /** Everything but the pump and what is addressed to the whole connection
      changes one stream and writes no octets of any body. */
  lemma StepHandled(c: Conn, s: Stimulus)
    requires Sound(c) && Fits(s) && !Wide(s)
    ensures Step(c, s).Ok? ==> Handled(c, Step(c, s).value, About(s))
  {
    hide OnService, OnRequest, RejectStream, OnData, OnRst, OnWindowUpdate, Proper, On, Carrying;
    var id := About(s);
    assert SoundAt(c, id);
    match s
    case FromService(event) => OnServiceHandled(c, event);
    case RequestArrives(_, fields, endStream, checked) => OnRequestHandled(c, id, fields, endStream, checked);
    case OversizedArrives(_) => RejectStreamHandled(c, id, StatusOnly(4, 3, 1));
    case DataArrives(_, data, endStream) => OnDataHandled(c, id, data, endStream);
    case ResetArrives(_) => OnRstHandled(c, id);
    case CreditArrives(_, increment) => OnWindowUpdateHandled(c, id, increment);
    case SocketTakes(_) =>
    case LimitMoves(_) =>
    case DrainCommits =>
      var d := c.(drainCommitted := true);
      QueueTouches(d, GoAway(c.streams.highestPeer, NoError, []), id);
      if Step(c, s).Ok? {
        TouchesThen(c, d, Step(c, s).value, id);
      }
  }

  lemma {:induction false} SettingsBound(p: PeerSettings, params: seq<Param>)
    requires DEFAULT_MAX_FRAME_SIZE <= p.maxFrame
    ensures var r := ApplySettings(p, params); r.Ok? ==> DEFAULT_MAX_FRAME_SIZE <= r.value.maxFrame
    decreases |params|
  {
    if params != [] && ApplySetting(p, params[0]).Ok? {
      SettingsBound(ApplySetting(p, params[0]).value, params[1..]);
    }
  }

  /** The peer's SETTINGS move send windows and nothing else of any stream. */
  lemma SettingsFacts(c: Conn, params: seq<Param>)
    requires OnSettings(c, params).Ok? && DEFAULT_MAX_FRAME_SIZE <= c.peer.maxFrame
    ensures var d := OnSettings(c, params).value;
            var delta := d.peer.initialWindow - c.peer.initialWindow;
            && d.ready == c.ready && d.connSend == c.connSend && d.connRecv == c.connRecv && d.said == c.said
            && d.pendingReset == c.pendingReset
            && Carrying(d.written) == Carrying(c.written)
            && (forall id: StreamId :: On(d.written, id) == On(c.written, id))
            && DEFAULT_MAX_FRAME_SIZE <= d.peer.maxFrame
            && (if delta == 0 then d.streams == c.streams
                else c.streams.ApplyInitialWindowDelta(delta) == Some(d.streams))
  {
    hide On, Carrying, ApplySettings, Table.ApplyInitialWindowDelta, EncoderState.SetMax;
    SettingsBound(c.peer, params);
    Logged(c.written, Settings(true, []));
  }

  lemma SettingsSound(c: Conn, params: seq<Param>)
    requires Sound(c)
    ensures OnSettings(c, params).Ok? ==> Sound(OnSettings(c, params).value)
  {
    hide OnSettings;
    if OnSettings(c, params).Ok? {
      SettingsFacts(c, params);
      var d := OnSettings(c, params).value;
      forall id: StreamId
        ensures SoundAt(d, id)
      {
        assert SoundAt(c, id);
      }
    }
  }

  /** The ring is right after everything that can happen. */
  lemma StepSound(c: Conn, s: Stimulus)
    requires Sound(c) && Fits(s)
    ensures Step(c, s).Ok? ==> Sound(Step(c, s).value)
  {
    hide Sound, Handled, Pump, OnSettings;
    if !Wide(s) {
      StepHandled(c, s);
      if Step(c, s).Ok? {
        HandledSound(c, Step(c, s).value, About(s));
      }
    } else if s.SettingsArrive? {
      SettingsSound(c, s.params);
    } else if s.WriterRuns? {
      PumpSettles(c);
    } else {
      CreditSound(c, s.increment);
    }
  }

  lemma CreditSound(c: Conn, increment: U32)
    requires Sound(c) && increment != 0
    ensures var r := OnWindowUpdate(c, CONNECTION, increment);
            r.Ok? ==> r.value == c.(connSend := r.value.connSend) && Sound(r.value)
  {
    var r := OnWindowUpdate(c, CONNECTION, increment);
    if r.Ok? {
      forall id: StreamId
        ensures SoundAt(r.value, id)
      {
        assert SoundAt(c, id);
      }
    }
  }

  /** A connection as the handshake leaves it, before any stream. */
  function NewConn(maxConcurrent: U32, window: WindowSize, streamWindow: WindowSize): Conn {
    Conn(NewTable(maxConcurrent, DEFAULT_INITIAL_WINDOW_SIZE, streamWindow), [], [], 0,
         Window(DEFAULT_INITIAL_WINDOW_SIZE), Opened(window),
         PeerSettings(4096, DEFAULT_INITIAL_WINDOW_SIZE, DEFAULT_MAX_FRAME_SIZE),
         EncoderState(HpackTable.Table([], 4096), None, true), [], [], false, map[])
  }

  function RunAll(c: Conn, stimuli: seq<Stimulus>): Progress
    requires Sound(c) && forall s :: s in stimuli ==> Fits(s)
    decreases |stimuli|
  {
    if stimuli == [] then Ok(c)
    else
      StepSound(c, stimuli[0]);
      var next :- Step(c, stimuli[0]);
      RunAll(next, stimuli[1..])
  }

  /** Whatever happens and in whatever order, for as long as the connection lasts:
      a live stream is in the ring exactly when it has something to send, and only
      once; and whenever the writer has just run, nothing it could write is left. */
  lemma {:induction false} AlwaysSound(c: Conn, stimuli: seq<Stimulus>)
    requires Sound(c) && forall s :: s in stimuli ==> Fits(s)
    ensures var r := RunAll(c, stimuli);
            r.Ok? ==> Sound(r.value) && (stimuli != [] && stimuli[|stimuli| - 1].WriterRuns? ==> Settled(r.value))
    decreases |stimuli|
  {
    if stimuli != [] {
      hide Sound, Step, Settled;
      StepSound(c, stimuli[0]);
      if Step(c, stimuli[0]).Ok? {
        AlwaysSound(Step(c, stimuli[0]).value, stimuli[1..]);
        if stimuli == [WriterRuns] {
          WriteSettles(c);
        } else if |stimuli| == 1 {
          assert stimuli[0] != WriterRuns;
        }
      }
    }
  }

  lemma WriteSettles(c: Conn)
    requires Sound(c)
    ensures Step(c, WriterRuns).Ok? ==> Settled(Step(c, WriterRuns).value)
  {
    PumpSettles(c);
  }

  lemma NewConnSound(maxConcurrent: U32, window: WindowSize, streamWindow: WindowSize)
    ensures Sound(NewConn(maxConcurrent, window, streamWindow))
  {
    var c := NewConn(maxConcurrent, window, streamWindow);
    forall id: StreamId
      ensures SoundAt(c, id)
    {
      assert c.Entry(id) == None;
    }
  }
}
