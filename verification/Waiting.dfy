/** Requests that wait for a place on a backend connection: when nobody waits while
    there is room, and when requests are begun in the order they came. */
module Waiting {
  import opened Octets
  import opened Frame
  import opened Flow
  import opened HpackCodec
  import opened Streams
  import CL = ClientLeg
  import opened Upstream
  import opened Remapping
  import opened UpstreamSteps

  // -------------------------------------------------------------------------
  // Places that come free and are not given away.
  // -------------------------------------------------------------------------

  /** The limit once SETTINGS are adopted. */
  function LimitAfter(u: Up, params: seq<Param>): nat {
    var limit := LimitIn(params);
    if limit.Some? && limit.value < U32_LIMIT then limit.value else u.streams.maxConcurrent
  }

  /** A WINDOW_UPDATE for a live stream that resets it: no increment, or too large a
      one. */
  predicate ResetsLive(u: Up, id: StreamId, increment: U32) {
    && id != CONNECTION && id in u.streams.live
    && (increment == 0 || u.streams.live[id].sendWindow.Increase(increment).None?)
  }

  /** The two steps that make room and start nobody, taken while somebody waits and
      identifiers are left: SETTINGS with a limit above the live streams, and a
      WINDOW_UPDATE that resets one of at most as many as the limit. */
  predicate Frees(u: Up, s: UpStep) {
    && u.pending != [] && u.streams.highestLocal < MAX_LOCAL_STREAM_ID
    && match s
       case SettingsArrive(params) => |u.streams.live| < LimitAfter(u, params)
       case CreditArrives(id, increment) => ResetsLive(u, id, increment) && |u.streams.live| <= u.streams.maxConcurrent
       case _ => false
  }

  lemma SettingsStep(u: Up, params: seq<Param>)
    requires Upstream.OnSettings(u, params).Ok?
    ensures var v := Upstream.OnSettings(u, params).value;
            && Lineup(v) == Lineup(u) && v.pending == u.pending && (Answering(u) ==> Answering(v))
            && v.streams.live.Keys == u.streams.live.Keys && v.streams.highestLocal == u.streams.highestLocal
            && v.streams.maxConcurrent == LimitAfter(u, params)
            && v.written == u.written + [Settings(true, [])]
  {
    hide CL.ApplySettings, LimitIn, Stream.WindowMoved, Lineup, StreamState.PeerCanSend;
    SameLineup(u, Upstream.OnSettings(u, params).value);
    WindowsMoveNoState(u.streams);
  }

  lemma WindowsMoveNoState(t: Table)
    ensures forall delta, id :: id in t.live && t.live[id].WindowMoved(delta).Some? ==>
              t.live[id].WindowMoved(delta).value.state == t.live[id].state
  {
  }

  lemma SettingsPrompt(u: Up, params: seq<Param>)
    requires Steady(u) && Upstream.OnSettings(u, params).Ok?
    ensures var v := Upstream.OnSettings(u, params).value;
            Lineup(v) == Lineup(u) && Answering(v) && (Prompt(v) <==> !Frees(u, SettingsArrive(params)))
  {
    hide Upstream.OnSettings, Lineup, Answering, LimitAfter;
    SettingsStep(u, params);
    var v := Upstream.OnSettings(u, params).value;
    assert |v.streams.live| == |v.streams.live.Keys| == |u.streams.live.Keys| == |u.streams.live|;
  }

  /** A live stream reset leaves one fewer. */
  lemma ResetPrompt(u: Up, id: StreamId, code: ErrorCode)
    requires Steady(u)
    ensures var v := WriteRst(u, id, code);
            && Lineup(v) == Lineup(u) && Answering(v)
            && (Prompt(v) <==> u.pending == [] || u.streams.highestLocal >= MAX_LOCAL_STREAM_ID || id !in u.streams.live
                               || |u.streams.live| > u.streams.maxConcurrent)
  {
    hide Lineup, StreamState.PeerCanSend;
    var v := WriteRst(u, id, code);
    SameLineup(u, v);
    if id in u.streams.live {
      assert v.streams.live == u.streams.live - {id};
      assert v.streams.live.Keys == u.streams.live.Keys - {id};
      assert |v.streams.live| == |v.streams.live.Keys| == |u.streams.live| - 1;
    } else {
      assert v.streams.live == u.streams.live;
    }
  }

  lemma CreditPrompt(u: Up, id: StreamId, increment: U32)
    requires Steady(u) && Upstream.OnWindowUpdate(u, id, increment).Ok?
    ensures var v := Upstream.OnWindowUpdate(u, id, increment).value;
            Lineup(v) == Lineup(u) && Answering(v) && (Prompt(v) <==> !Frees(u, CreditArrives(id, increment)))
  {
    hide Lineup, Answering, WriteRst, EnqueueReady, CanOpenLocal;
    ResetPrompt(u, id, ProtocolError);
    ResetPrompt(u, id, FlowControlError);
    var v := Upstream.OnWindowUpdate(u, id, increment).value;
    if increment != 0 && id == CONNECTION {
      SameLineup(u, v);
      SameAnswering(u, v);
    } else if increment != 0 && id in u.streams.live && !ResetsLive(u, id, increment) {
      var s := u.streams.live[id].(sendWindow := u.streams.live[id].sendWindow.Increase(increment).value);
      EnqueuedPrompt(u, id, s);
    }
  }

  lemma SameAnswering(u: Up, v: Up)
    requires v.streams == u.streams
    ensures Answering(u) ==> Answering(v)
  {
  }

  lemma EnqueuedPrompt(u: Up, id: StreamId, s: Stream)
    requires Steady(u) && id in u.streams.live && s.state == u.streams.live[id].state
    ensures var v := EnqueueReady(Put(u, id, s), id); Lineup(v) == Lineup(u) && Steady(v)
  {
    hide Lineup;
    SameLineup(u, EnqueueReady(Put(u, id, s), id));
    PutKeeps(u, id, s);
  }

  // -------------------------------------------------------------------------
  // Requests as they come.
  // -------------------------------------------------------------------------

  /** A request that is begun while others wait. */
  predicate Overtakes(u: Up, s: UpStep) {
    && s.Hears? && s.message.Request? && s.message.request !in u.cancelled
    && u.draining.None? && u.pending != [] && CanOpenLocal(u.streams)
  }

  lemma PromptIsInTurn(u: Up, s: UpStep)
    requires Prompt(u)
    ensures !Overtakes(u, s)
  {
  }

  /** A request joins the end of the line, or passes those who wait, or is turned
      away. */
  lemma RequestSteps(u: Up, m: Message)
    requires m.Request?
    ensures var v := OnMessage(u, m);
            && (Steady(u) ==> Steady(v)) && Extends(u, v)
            && (!Overtakes(u, Hears(m)) ==> Within(Lineup(v), Lineup(u) + [m.request]))
            && (Overtakes(u, Hears(m)) && Numbered(u) ==>
                  Lineup(v) == (OpenedRequests(u.acts) + [m.request]) + Requests(u.pending))
  {
    hide OnMessage, OpenStream, CanOpenLocal, Within, Extends, OpenedRequests, Requests, Numbered, Answering;
    RequestMessage(u, m);
    if m.request in u.cancelled || u.draining.Some? || !CanOpenLocal(u.streams) {
      UnbegunSteps(u, m);
    } else {
      BegunSteps(u, m);
    }
  }

  lemma UnbegunSteps(u: Up, m: Message)
    requires m.Request? && (m.request in u.cancelled || u.draining.Some? || !CanOpenLocal(u.streams))
    ensures var v := SendRequest(u, m.request, m.client, m.head, m.endStream);
            (Steady(u) ==> Steady(v)) && Extends(u, v) && Within(Lineup(v), Lineup(u) + [m.request])
  {
    hide OpenStream, CanOpenLocal, Within, Extends, OpenedRequests, Requests, Answering;
    var before, v := Lineup(u), SendRequest(u, m.request, m.client, m.head, m.endStream);
    WithinSelf(before);
    WithinSnoc(before, before, m.request);
    LittleExtends(u, v);
    SameAnswering(u, v);
    if v.pending == u.pending {
      OpenedRequestsSnoc(u.acts, TurnedAway(m.client, CL.ResetStream(m.client.id, RefusedStream)));
      OpenedRequestsSnoc(u.acts, TurnedAway(m.client, CL.Shed(m.client.id)));
    } else {
      RequestsSnoc(u.pending, Pending(m.request, m.client, m.head, m.endStream, [], None));
      assert before + [m.request] == OpenedRequests(u.acts) + (Requests(u.pending) + [m.request]);
    }
  }

  lemma BegunSteps(u: Up, m: Message)
    requires m.Request?
    ensures var v := OpenStream(u, m.request, m.client, m.head, m.endStream);
            && v.pending == u.pending && (Answering(u) ==> Answering(v)) && Extends(u, v)
            && (u.pending == [] ==> Within(Lineup(v), Lineup(u) + [m.request]))
            && (Numbered(u) && CanOpenLocal(u.streams) ==>
                  Lineup(v) == (OpenedRequests(u.acts) + [m.request]) + Requests(u.pending))
  {
    hide OpenStream, CanOpenLocal, Within, Extends, OpenedRequests, Numbered, Requests, Answering;
    var before, v := Lineup(u), OpenStream(u, m.request, m.client, m.head, m.endStream);
    OpenSteps(u, m.request, m.client, m.head, m.endStream);
    WithinSelf(before);
    WithinSnoc(before, before, m.request);
    RequestsOfNone();
    assert OpenedRequests(u.acts) + [] == OpenedRequests(u.acts) && OpenedRequests(v.acts) + [] == OpenedRequests(v.acts);
    if Numbered(u) && CanOpenLocal(u.streams) {
      OpenShape(u, m.request, m.client, m.head, m.endStream);
      OpenedRequestsSnoc(u.acts, Act.Opened(StreamIdFrom(u.nextId), m.request, m.client));
    }
  }

  lemma RequestsOfNone()
    ensures Requests([]) == []
  {
  }

  // -------------------------------------------------------------------------
  // Whole runs.
  // -------------------------------------------------------------------------

  /** One step of a steady connection. */
  lemma StepPrompt(u: Up, s: UpStep)
    requires Fits(u, s) && Steady(u) && Advance(u, s).Ok?
    ensures var v := Advance(u, s).value; Answering(v) && (Prompt(v) <==> !Frees(u, s))
  {
    hide OnMessage, OnResponse, FailStream, Upstream.OnData, Upstream.OnRst, Upstream.OnWindowUpdate, Upstream.OnSettings,
      OnGoAway, Upstream.VisitReady, Prompt, Answering, CanOpenLocal, Lineup, Within, Extends;
    if s.SettingsArrive? {
      SettingsPrompt(u, s.params);
    } else if s.CreditArrives? {
      CreditPrompt(u, s.id, s.increment);
    } else if s.Hears? && s.message.Request? {
      RequestSteps(u, s.message);
    } else {
      StepKeeps(u, s);
    }
  }

  function Asked(asked: seq<RequestId>, s: UpStep): seq<RequestId> {
    if s.Hears? && s.message.Request? then asked + [s.message.request] else asked
  }

  /** And of those who have asked, in the order they did. */
  lemma StepInTurn(u: Up, s: UpStep, asked: seq<RequestId>)
    requires Fits(u, s) && Within(Lineup(u), asked) && Advance(u, s).Ok? && !Overtakes(u, s)
    ensures Within(Lineup(Advance(u, s).value), Asked(asked, s))
  {
    hide OnMessage, OnResponse, FailStream, Upstream.OnData, Upstream.OnRst, Upstream.OnWindowUpdate, Upstream.OnSettings,
      OnGoAway, Upstream.VisitReady, Steady, Overtakes, Lineup, Within, Extends;
    var v := Advance(u, s).value;
    if s.SettingsArrive? {
      SettingsStep(u, s.params);
    } else if s.CreditArrives? {
      CreditInLine(u, s.id, s.increment);
    } else if s.Hears? && s.message.Request? {
      RequestSteps(u, s.message);
      WithinSnoc(Lineup(u), asked, s.message.request);
      WithinThen(Lineup(v), Lineup(u) + [s.message.request], asked + [s.message.request]);
    } else {
      StepKeeps(u, s);
      WithinThen(Lineup(v), Lineup(u), asked);
    }
  }

  lemma CreditInLine(u: Up, id: StreamId, increment: U32)
    requires Upstream.OnWindowUpdate(u, id, increment).Ok?
    ensures Lineup(Upstream.OnWindowUpdate(u, id, increment).value) == Lineup(u)
  {
    hide Lineup;
    SameLineup(u, Upstream.OnWindowUpdate(u, id, increment).value);
  }

  /** Someone new who has passed another is out of turn. */
  lemma OvertakenOutOfTurn(u: Up, s: UpStep, asked: seq<RequestId>)
    requires Numbered(u) && Within(Lineup(u), asked) && Overtakes(u, s) && s.message.request !in asked
    ensures !Within(Lineup(OnMessage(u, s.message)), Asked(asked, s))
  {
    hide OnMessage, CanOpenLocal, Extends, Steady, OpenedRequests, Numbered;
    var q, begun, waiting := s.message.request, OpenedRequests(u.acts), Requests(u.pending);
    RequestSteps(u, s.message);
    var after := (begun + [q]) + waiting;
    assert waiting != [];
    if Within(after, asked + [q]) {
      assert (asked + [q])[..|asked|] == asked;
      assert after[|begun|] == q;
      if Within(after, asked) {
        WithinMember(after, asked, q);
        assert false;
      } else {
        assert after[|after| - 1] == waiting[|waiting| - 1] == Lineup(u)[|Lineup(u)| - 1];
        WithinMember(Lineup(u), asked, q);
        assert false;
      }
    }
  }

  ghost predicate AlwaysPrompt(u: Up, steps: seq<UpStep>)
    requires Plausible(u, steps)
    decreases |steps|
  {
    && Prompt(u)
    && (steps != [] && Advance(u, steps[0]).Ok? ==> AlwaysPrompt(Advance(u, steps[0]).value, steps[1..]))
  }

  ghost predicate NeverFrees(u: Up, steps: seq<UpStep>)
    requires Plausible(u, steps)
    decreases |steps|
  {
    steps != [] && Advance(u, steps[0]).Ok? ==>
      !Frees(u, steps[0]) && NeverFrees(Advance(u, steps[0]).value, steps[1..])
  }

  /** Requests begun and then those waiting are, at every moment, some of those asked
      for so far, in the order they were asked for. */
  ghost predicate AlwaysInTurn(u: Up, steps: seq<UpStep>, asked: seq<RequestId>)
    requires Plausible(u, steps)
    decreases |steps|
  {
    && Within(Lineup(u), asked)
    && (steps != [] && Advance(u, steps[0]).Ok? ==>
          AlwaysInTurn(Advance(u, steps[0]).value, steps[1..], Asked(asked, steps[0])))
  }

  ghost predicate NeverOvertakes(u: Up, steps: seq<UpStep>)
    requires Plausible(u, steps)
    decreases |steps|
  {
    steps != [] && Advance(u, steps[0]).Ok? ==>
      !Overtakes(u, steps[0]) && NeverOvertakes(Advance(u, steps[0]).value, steps[1..])
  }

  /** Each request is asked for once. */
  predicate AskedOnce(steps: seq<UpStep>, asked: seq<RequestId>)
    decreases |steps|
  {
    steps != [] ==>
      && (steps[0].Hears? && steps[0].message.Request? ==> steps[0].message.request !in asked)
      && AskedOnce(steps[1..], Asked(asked, steps[0]))
  }

  /** Nobody ever waits while there is room, over a run from any steady state, if and
      only if no step of it frees a place that nobody is given. */
  lemma {:induction false} PromptExactly(u: Up, steps: seq<UpStep>)
    requires Steady(u) && Plausible(u, steps)
    ensures AlwaysPrompt(u, steps) <==> NeverFrees(u, steps)
    decreases |steps|
  {
    if steps != [] && Advance(u, steps[0]).Ok? {
      hide Advance, Prompt, Answering, Frees, Honest;
      StepPrompt(u, steps[0]);
      if !Frees(u, steps[0]) {
        PromptExactly(Advance(u, steps[0]).value, steps[1..]);
      }
    }
  }

  lemma {:induction false} PromptNeverOvertakes(u: Up, steps: seq<UpStep>)
    requires Plausible(u, steps) && AlwaysPrompt(u, steps)
    ensures NeverOvertakes(u, steps)
    decreases |steps|
  {
    if steps != [] && Advance(u, steps[0]).Ok? {
      hide Advance, Prompt, Overtakes, Honest;
      PromptIsInTurn(u, steps[0]);
      PromptNeverOvertakes(Advance(u, steps[0]).value, steps[1..]);
    }
  }

  /** Requests are taken in turn, over any run, as long as none is begun while others
      wait; and only so long, if each is asked for once. */
  lemma {:induction false} InTurnExactly(u: Up, t: Tally, steps: seq<UpStep>, asked: seq<RequestId>)
    requires Kept(u, t.lost, t.returned) && Plausible(u, steps) && Within(Lineup(u), asked)
    ensures NeverOvertakes(u, steps) ==> AlwaysInTurn(u, steps, asked)
    ensures AskedOnce(steps, asked) ==> (AlwaysInTurn(u, steps, asked) <==> NeverOvertakes(u, steps))
    decreases |steps|
  {
    if steps != [] && Advance(u, steps[0]).Ok? {
      hide Kept, Advance, Overtakes, Honest, Lineup, Within, Asked;
      var v := Advance(u, steps[0]).value;
      if !Overtakes(u, steps[0]) {
        StepInTurn(u, steps[0], asked);
        DoKept(u, steps[0], t);
        InTurnExactly(v, Tallied(t, u, steps[0]), steps[1..], Asked(asked, steps[0]));
      } else if AskedOnce(steps, asked) {
        OvertakingStep(u, t, steps[0], asked);
      }
    }
  }

  lemma OvertakingStep(u: Up, t: Tally, s: UpStep, asked: seq<RequestId>)
    requires Kept(u, t.lost, t.returned) && Fits(u, s) && Advance(u, s).Ok? && Within(Lineup(u), asked)
    requires Overtakes(u, s) && s.message.request !in asked
    ensures !Within(Lineup(Advance(u, s).value), Asked(asked, s))
  {
    hide OnMessage, Within, Lineup, Mutual, Numbered, Recorded, Accounted;
    OvertakenOutOfTurn(u, s, asked);
  }

  /** From the start of a connection: nobody waits while there is room if and only if
      no step frees a place that nobody is given; then requests are begun in the order
      they came; and whether they are depends on nothing but that none is begun while
      others wait. */
  lemma ServedInTurn(maxPending: nat, window: CL.WindowSize, streamWindow: CL.WindowSize, steps: seq<UpStep>)
    requires Plausible(NewUp(maxPending, window, streamWindow), steps)
    ensures var u := NewUp(maxPending, window, streamWindow);
            && (AlwaysPrompt(u, steps) <==> NeverFrees(u, steps))
            && (NeverFrees(u, steps) ==> AlwaysInTurn(u, steps, []))
            && (AskedOnce(steps, []) ==> (AlwaysInTurn(u, steps, []) <==> NeverOvertakes(u, steps)))
  {
    hide Plausible, Kept, AlwaysPrompt, NeverFrees, AlwaysInTurn, NeverOvertakes, AskedOnce;
    var u := NewUp(maxPending, window, streamWindow);
    NewUpKept(maxPending, window, streamWindow);
    PromptExactly(u, steps);
    InTurnExactly(u, Tally(0, Returns(map[], window)), steps, []);
    if AlwaysPrompt(u, steps) {
      PromptNeverOvertakes(u, steps);
    }
  }
}
