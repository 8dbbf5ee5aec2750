/** Bounded bypass: while a stream waits in the ring with octets to send and
    credit of its own, every other stream gets at most one frame of body out
    before it, however little credit the connection has and whatever else happens. */
module Fairness {
  import opened Octets
  import opened Frame
  import opened Flow
  import opened Streams
  import opened ClientLeg
  import opened Ring
  import opened Sums
  import opened Scheduler
  import opened ClientRuns

  /** Frames of one stream among frames that carry octets. */
  function CountOf(log: seq<Frame>, id: StreamId): nat
    requires forall f :: f in log ==> f.Data?
    decreases |log|
  {
    if log == [] then 0
    else CountOf(log[..|log| - 1], id) + (if log[|log| - 1].stream == id then 1 else 0)
  }

  predicate Served(log: seq<Frame>, id: StreamId)
    requires forall f :: f in log ==> f.Data?
  {
    exists f :: f in log && f.stream == id
  }

  /** Up to the first frame of `id` nobody else appears more than once, and every
      frame stays within the fair share. */
  ghost predicate Fair(log: seq<Frame>, id: StreamId)
    requires forall f :: f in log ==> f.Data?
    decreases |log|
  {
    || log == []
    || var past := log[..|log| - 1];
       && Fair(past, id)
       && |log[|log| - 1].data| <= SEND_BUDGET
       && (Served(past, id) || forall other :: other != id ==> CountOf(log, other) <= 1)
  }

  lemma {:induction false} CarryingIsData(written: seq<Frame>)
    ensures forall f :: f in Carrying(written) ==> f.Data?
    decreases |written|
  {
    if written != [] {
      CarryingIsData(written[..|written| - 1]);
    }
  }

  /** The octet-carrying frames written since there were `from` of them. */
  ghost function Since(c: Conn, from: nat): seq<Frame>
    ensures forall f :: f in Since(c, from) ==> f.Data?
  {
    CarryingIsData(c.written);
    if from <= |Carrying(c.written)| then Carrying(c.written)[from..] else []
  }

  predicate Before(ids: seq<StreamId>, a: StreamId, b: StreamId) {
    exists i, j :: 0 <= i < j < |ids| && ids[i] == a && ids[j] == b
  }

  /** In the ring, with octets to send and credit of its own. */
  predicate Waiting(c: Conn, id: StreamId) {
    && id in c.ready && id in c.streams.live
    && c.streams.live[id].sendQueue != []
    && c.streams.live[id].sendWindow.available > 0
  }

  /** What keeps a stream from being passed twice: whoever has had a frame out
      since is no longer ahead of it. */
  ghost predicate Patient(c: Conn, id: StreamId, from: nat) {
    var log := Since(c, from);
    && from <= |Carrying(c.written)|
    && Fair(log, id)
    && (!Served(log, id) && id in c.ready ==>
          forall other :: other != id && Before(c.ready, other, id) ==> CountOf(log, other) == 0)
  }

  lemma LogGrows(c: Conn, d: Conn, from: nat, more: seq<Frame>)
    requires from <= |Carrying(c.written)| && Carrying(d.written) == Carrying(c.written) + more
    ensures Since(d, from) == Since(c, from) + more
  {
  }

  lemma FairSnoc(log: seq<Frame>, f: Frame, id: StreamId)
    requires (forall g :: g in log ==> g.Data?) && f.Data? && |f.data| <= SEND_BUDGET
    requires Fair(log, id)
    requires Served(log, id) || f.stream == id || CountOf(log, f.stream) == 0
    ensures Fair(log + [f], id)
    ensures Served(log + [f], id) <==> Served(log, id) || f.stream == id
    ensures forall other :: CountOf(log + [f], other) == CountOf(log, other) + (if f.stream == other then 1 else 0)
  {
    var next := log + [f];
    assert next[..|next| - 1] == log;
    if !Served(log, id) {
      AtMostOne(log, id);
    }
  }

  lemma AtMostOne(log: seq<Frame>, id: StreamId)
    requires (forall g :: g in log ==> g.Data?) && Fair(log, id) && !Served(log, id)
    ensures forall other :: other != id ==> CountOf(log, other) <= 1
  {
    if log != [] {
      var past := log[..|log| - 1];
      assert forall f :: f in past ==> f in log;
    }
  }

  // -------------------------------------------------------------------------
  // Everything but the writer.
  // -------------------------------------------------------------------------

  lemma {:induction false} WithoutOrder(ids: seq<StreamId>, gone: StreamId, a: StreamId, b: StreamId)
    requires NoDuplicates(ids) && Before(Without(ids, gone), a, b)
    ensures Before(ids, a, b)
  {
    if ids != [] {
      var kept := Without(ids, gone);
      var rest := Without(ids[1..], gone);
      WithoutFacts(ids[1..], gone);
      var i, j :| 0 <= i < j < |kept| && kept[i] == a && kept[j] == b;
      if ids[0] == gone {
        WithoutOrder(ids[1..], gone, a, b);
        ShiftedOrder(ids, a, b);
      } else if i > 0 {
        assert rest[i - 1] == a && rest[j - 1] == b;
        WithoutOrder(ids[1..], gone, a, b);
        ShiftedOrder(ids, a, b);
      } else {
        assert rest[j - 1] == b;
        assert b in ids[1..] by {
          assert b in rest && b != gone;
        }
        var k :| 0 <= k < |ids[1..]| && ids[1..][k] == b;
        assert ids[0] == a && ids[k + 1] == b;
      }
    }
  }

  lemma ShiftedOrder(ids: seq<StreamId>, a: StreamId, b: StreamId)
    requires ids != [] && Before(ids[1..], a, b)
    ensures Before(ids, a, b)
  {
    var i, j :| 0 <= i < j < |ids[1..]| && ids[1..][i] == a && ids[1..][j] == b;
    assert ids[i + 1] == a && ids[j + 1] == b;
  }

  /** A ring that changed about one stream puts nobody new ahead of another. */
  lemma MoveKeepsOrder(a: seq<StreamId>, b: seq<StreamId>, moved: StreamId, other: StreamId, id: StreamId)
    requires NoDuplicates(a) && RingMoves(a, b, moved) && id in a && id in b && other != id
    requires Before(b, other, id)
    ensures Before(a, other, id)
  {
    if b == Without(a, moved) {
      WithoutOrder(a, moved, other, id);
    } else if b != a {
      var i, j :| 0 <= i < j < |b| && b[i] == other && b[j] == id;
      assert a[i] == other && a[j] == id;
    }
  }

  /** A change that writes no octets leaves patience as it was. */
  lemma QuietKeepsPatience(c: Conn, d: Conn, moved: StreamId, id: StreamId, from: nat)
    requires NoDuplicates(c.ready) && Patient(c, id, from)
    requires RingMoves(c.ready, d.ready, moved) && Carrying(d.written) == Carrying(c.written)
    requires Served(Since(c, from), id) || id in c.ready || id !in d.ready
    ensures Patient(d, id, from)
  {
    hide Fair;
    assert Since(d, from) == Since(c, from);
    if !Served(Since(d, from), id) && id in d.ready {
      forall other | other != id && Before(d.ready, other, id)
        ensures CountOf(Since(d, from), other) == 0
      {
        MoveKeepsOrder(c.ready, d.ready, moved, other, id);
      }
    }
  }

  // -------------------------------------------------------------------------
  // A lap.
  // -------------------------------------------------------------------------

  lemma FrontFirst(lap: seq<StreamId>, id: StreamId)
    requires lap != [] && id in lap && lap[0] != id
    ensures Before(lap, lap[0], id) && id in lap[1..]
  {
    var j :| 0 <= j < |lap| && lap[j] == id;
    assert lap[1..][j - 1] == id;
  }

  /** Joining the back puts nobody ahead of those already there. */
  lemma SnocOrder(ids: seq<StreamId>, last: StreamId, a: StreamId, b: StreamId)
    requires Before(ids + [last], a, b)
    ensures if b == last && b !in ids then a in ids else Before(ids, a, b) || b == last
  {
    var next := ids + [last];
    var i, j :| 0 <= i < j < |next| && next[i] == a && next[j] == b;
    if j < |ids| {
      assert ids[i] == a && ids[j] == b;
    } else {
      assert ids[i] == a;
    }
  }

  /** Its turn is still to come, and nobody who will be ahead of it has had one. */
  ghost predicate Ahead(at: LapEnd, lap: seq<StreamId>, id: StreamId, log: seq<Frame>)
    requires forall f :: f in log ==> f.Data?
  {
    && id in lap
    && (forall other :: other != id && Before(lap, other, id) ==> CountOf(log, other) == 0)
    && (forall other :: other in at.stalled ==> CountOf(log, other) == 0)
  }

  /** It had its turn and there was no credit for anyone. */
  ghost predicate Dry(at: LapEnd, id: StreamId, log: seq<Frame>)
    requires forall f :: f in log ==> f.Data?
  {
    && id in at.stalled && at.conn.connSend.available <= 0
    && (forall other :: other != id && Before(at.stalled, other, id) ==> CountOf(log, other) == 0)
  }

  ghost predicate LapPatient(at: LapEnd, lap: seq<StreamId>, id: StreamId, from: nat) {
    var log := Since(at.conn, from);
    && from <= |Carrying(at.conn.written)|
    && Fair(log, id)
    && (!Served(log, id) ==>
          && id in at.conn.streams.live
          && at.conn.streams.live[id].sendQueue != [] && at.conn.streams.live[id].sendWindow.available > 0
          && (Ahead(at, lap, id, log) || Dry(at, id, log)))
  }

  /** Someone else's turn, with ours to come. */
  lemma AheadStays(at: LapEnd, lap: seq<StreamId>, v: Visited, id: StreamId, log: seq<Frame>, more: seq<Frame>)
    requires (forall f :: f in log + more ==> f.Data?) && (forall f :: f in log ==> f.Data?)
    requires lap != [] && lap[0] != id && Ahead(at, lap, id, log)
    requires NoDuplicates(at.stalled + at.served + lap)
    requires more == [] || (|more| == 1 && more[0].Data? && more[0].stream == lap[0] && |more[0].data| <= SEND_BUDGET)
    requires v.visit.Stalled? ==> more == []
    requires Fair(log, id) && !Served(log, id)
    ensures Fair(log + more, id) && !Served(log + more, id)
    ensures Ahead(LapNext(at, lap[0], v), lap[1..], id, log + more)
  {
    hide Fair;
    var x, next := lap[0], LapNext(at, lap[0], v);
    FrontFirst(lap, id);
    RingShuffles(at.stalled, at.served, lap);
    if more == [] {
      assert log + more == log;
    } else {
      assert log + more == log + [more[0]];
      FairSnoc(log, more[0], id);
    }
    forall other | other != id && Before(lap[1..], other, id)
      ensures CountOf(log + more, other) == 0
    {
      ShiftedOrder(lap, other, id);
    }
  }

  lemma DryStays(at: LapEnd, x: StreamId, v: Visited, id: StreamId, log: seq<Frame>)
    requires (forall f :: f in log ==> f.Data?) && Dry(at, id, log) && x != id
    requires v.conn.connSend.available <= at.conn.connSend.available
    ensures Dry(LapNext(at, x, v), id, log)
  {
    var next := LapNext(at, x, v);
    forall other | other != id && Before(next.stalled, other, id)
      ensures CountOf(log, other) == 0
    {
      if next.stalled != at.stalled {
        SnocOrder(at.stalled, x, other, id);
      }
    }
  }

  lemma DryIsDry(at: LapEnd, id: StreamId, log: seq<Frame>)
    requires (forall f :: f in log ==> f.Data?) && Dry(at, id, log)
    ensures at.conn.connSend.available <= 0
  {
  }

  lemma OtherVisit(at: LapEnd, lap: seq<StreamId>, v: Visited, id: StreamId, from: nat)
    requires Lapping(at, lap) && LapPatient(at, lap, id, from)
    requires lap != [] && lap[0] != id && lap[0] in at.conn.streams.live && VisitEffect(at.conn, lap[0], v)
    requires !Served(Since(at.conn, from), id)
    ensures LapPatient(LapNext(at, lap[0], v), lap[1..], id, from)
  {
    hide Fair, LappingAt, Served, Ahead, Dry, Proper, Unqueued, On, Carrying, QueuedOctets, Take, CountOf, Since;
    var x, log, next := lap[0], Since(at.conn, from), LapNext(at, lap[0], v);
    var t := Take(at.conn.streams.live[x], Budget(at.conn, at.conn.streams.live[x]));
    var more := if v.visit.Wrote? then Carried(x, t) else [];
    LogGrows(at.conn, v.conn, from, more);
    assert v.conn.Entry(id) == at.conn.Entry(id);
    if Ahead(at, lap, id, log) {
      AheadStays(at, lap, v, id, log, more);
    } else {
      DryIsDry(at, id, log);
      assert more == [];
      assert log + more == log;
      DryStays(at, x, v, id, log);
    }
  }

  /** Its own turn: it gets a frame out, or nobody after it can. */
  lemma OwnVisit(at: LapEnd, lap: seq<StreamId>, v: Visited, id: StreamId, from: nat)
    requires Lapping(at, lap) && LapPatient(at, lap, id, from)
    requires lap != [] && lap[0] == id && id in at.conn.streams.live && VisitEffect(at.conn, id, v)
    requires !Served(Since(at.conn, from), id)
    ensures LapPatient(LapNext(at, id, v), lap[1..], id, from)
  {
    hide Fair, LappingAt, Proper, Unqueued, On, Carrying, QueuedOctets, Take, CountOf, Since;
    var log := Since(at.conn, from);
    var t := Take(at.conn.streams.live[id], Budget(at.conn, at.conn.streams.live[id]));
    RingShuffles(at.stalled, at.served, lap);
    if v.visit.Wrote? {
      LogGrows(at.conn, v.conn, from, [Data(id, t.chunk, t.endStream)]);
      FairSnoc(log, Data(id, t.chunk, t.endStream), id);
    } else {
      LogGrows(at.conn, v.conn, from, []);
      assert log + [] == log;
      assert id in lap;
      forall other | other != id && Before(at.stalled + [id], other, id)
        ensures CountOf(log, other) == 0
      {
        SnocOrder(at.stalled, id, other, id);
      }
      assert Dry(LapNext(at, id, v), id, log);
    }
  }

  /** Once served, nothing that follows matters but the size of frames. */
  lemma ServedVisit(at: LapEnd, lap: seq<StreamId>, v: Visited, id: StreamId, from: nat)
    requires LapPatient(at, lap, id, from) && lap != [] && lap[0] in at.conn.streams.live
    requires VisitEffect(at.conn, lap[0], v) && Served(Since(at.conn, from), id)
    ensures LapPatient(LapNext(at, lap[0], v), lap[1..], id, from)
  {
    hide Fair, Proper, Unqueued, On, Carrying, QueuedOctets, Take, CountOf, Since;
    var x, log := lap[0], Since(at.conn, from);
    var t := Take(at.conn.streams.live[x], Budget(at.conn, at.conn.streams.live[x]));
    var more := if v.visit.Wrote? then Carried(x, t) else [];
    LogGrows(at.conn, v.conn, from, more);
    if more == [] {
      assert log + more == log;
    } else {
      FairSnoc(log, more[0], id);
    }
  }

  lemma {:induction false} LapKeepsPatience(at: LapEnd, lap: seq<StreamId>, id: StreamId, from: nat)
    requires Lapping(at, lap) && LapPatient(at, lap, id, from)
    ensures RunLap(at, lap).Ok? ==> LapPatient(RunLap(at, lap).value, [], id, from)
    decreases |lap|
  {
    hide VisitReady, VisitEffect, LapPatient, Served, Since, LapNext, Proper;
    if lap != [] {
      var x := lap[0];
      NextInLap(at, lap);
      VisitFacts(at.conn, x);
      var v := VisitReady(at.conn, x);
      if v.Ok? {
        VisitKeepsLap(at, lap, v.value);
        if Served(Since(at.conn, from), id) {
          ServedVisit(at, lap, v.value, id, from);
        } else if x == id {
          OwnVisit(at, lap, v.value, id, from);
        } else {
          OtherVisit(at, lap, v.value, id, from);
        }
        LapKeepsPatience(LapNext(at, x, v.value), lap[1..], id, from);
      }
    }
  }

  /** A whole lap. */
  lemma OneLapKeepsPatience(c: Conn, id: StreamId, from: nat)
    requires Sound(c) && Patient(c, id, from)
    requires Served(Since(c, from), id) || Waiting(c, id)
    ensures OneLap(c).Ok? ==>
              var d := OneLap(c).value.0;
              Patient(d, id, from) && (Served(Since(d, from), id) || Waiting(d, id))
  {
    hide RunLap, Lapping, Sound, Fair, Served, Proper, CountOf, Carrying;
    var start := LapEnd(c.(ready := []), [], [], false);
    LapStarts(c);
    assert Since(start.conn, from) == Since(c, from);
    LapKeepsPatience(start, c.ready, id, from);
    LapFacts(start, c.ready);
    var r := RunLap(start, c.ready);
    if r.Ok? {
      RebuildFacts(r.value);
      LapEnds(r.value, id, from);
    }
  }

  lemma LapEnds(e: LapEnd, id: StreamId, from: nat)
    requires Lapping(e, []) && LapPatient(e, [], id, from)
    requires Rebuild(e).ready == e.stalled + e.served
    ensures Patient(Rebuild(e), id, from)
    ensures Served(Since(Rebuild(e), from), id) || Waiting(Rebuild(e), id)
  {
    hide Fair, Proper, CountOf, Carrying, LappingAt;
    var d, log := Rebuild(e), Since(e.conn, from);
    assert Since(d, from) == log;
    if !Served(log, id) {
      assert Dry(e, id, log);
      RingDisjoint(e.stalled, e.served);
      forall other | other != id && Before(d.ready, other, id)
        ensures CountOf(log, other) == 0
      {
        PrefixOrder(e.stalled, e.served, other, id);
      }
    }
  }

  lemma RingDisjoint(stalled: seq<StreamId>, served: seq<StreamId>)
    requires NoDuplicates(stalled + served + [])
    ensures forall i :: i in stalled ==> i !in served
  {
    assert stalled + served + [] == stalled + served;
    NoDuplicatesConcat(stalled, served);
  }

  lemma PrefixOrder(x: seq<StreamId>, y: seq<StreamId>, a: StreamId, b: StreamId)
    requires Before(x + y, a, b) && b !in y
    ensures Before(x, a, b)
  {
    var z := x + y;
    assert forall k :: |x| <= k < |z| ==> z[k] in y;
    var i, j :| 0 <= i < j < |z| && z[i] == a && z[j] == b;
    assert x[i] == a && x[j] == b;
  }

  // -------------------------------------------------------------------------
  // The pump, and whole runs.
  // -------------------------------------------------------------------------

  lemma PatienceIgnoresResets(c: Conn, resets: seq<(StreamId, ErrorCode)>, id: StreamId, from: nat)
    requires Patient(c, id, from)
    ensures Patient(c.(pendingReset := resets), id, from)
  {
  }

  lemma {:induction false} FlushKeepsPatience(c: Conn, id: StreamId, from: nat)
    requires Sound(c) && Patient(c, id, from)
    ensures FlushResets(c).Ok? && Patient(FlushResets(c).value, id, from)
    decreases |c.pendingReset|
  {
    FlushFacts(c);
    if c.pendingReset != [] {
      hide WriteRst, Sound, Patient, Carrying, On;
      var last := c.pendingReset[|c.pendingReset| - 1];
      var b := c.(pendingReset := c.pendingReset[..|c.pendingReset| - 1]);
      SoundIgnoresResets(c, b.pendingReset);
      PatienceIgnoresResets(c, b.pendingReset, id, from);
      FlushKeeps(b, last.0, last.1);
      ResetFacts(b, last.0, last.1);
      ResetKeepsPatience(b, last.0, last.1, id, from);
      FlushKeepsPatience(WriteRst(b, last.0, last.1).value, id, from);
    }
  }

  lemma ResetKeepsPatience(c: Conn, x: StreamId, code: ErrorCode, id: StreamId, from: nat)
    requires Sound(c) && Patient(c, id, from)
    ensures WriteRst(c, x, code).Ok? && Patient(WriteRst(c, x, code).value, id, from)
  {
    hide WriteRst, Patient, Since, Served, SoundAt, On, Carrying;
    WriteRstTouches(c, x, code);
    WithoutFacts(c.ready, x);
    QuietKeepsPatience(c, WriteRst(c, x, code).value, x, id, from);
  }

  lemma {:induction false} PumpKeepsPatience(c: Conn, id: StreamId, from: nat)
    requires Sound(c) && Patient(c, id, from)
    requires Served(Since(c, from), id) || Waiting(c, id)
    ensures Pump(c).Ok? ==> Patient(Pump(c).value, id, from)
    decreases Total(c.streams.live, Load)
  {
    hide OneLap, FlushResets, Sound, Patient, Since, Served, Waiting, Total, Load;
    OneLapFacts(c);
    if c.ready == [] || c.outLen >= MAX_WRITE_QUEUE {
      FlushKeepsPatience(c, id, from);
    } else if OneLap(c).Ok? {
      OneLapKeepsPatience(c, id, from);
      var (d, wrote) := OneLap(c).value;
      if wrote {
        PumpKeepsPatience(d, id, from);
      } else {
        FlushKeepsPatience(d, id, from);
      }
    }
  }

  lemma StepKeepsPatience(c: Conn, s: Stimulus, id: StreamId, from: nat)
    requires Sound(c) && Fits(s) && Patient(c, id, from)
    requires Served(Since(c, from), id) || Waiting(c, id)
    ensures Step(c, s).Ok? ==> Patient(Step(c, s).value, id, from)
  {
    hide Pump, OnSettings, OnWindowUpdate, Patient, Since, Served, SoundAt, On, Carrying, Elsewhere;
    var r := Step(c, s);
    if s.WriterRuns? {
      PumpKeepsPatience(c, id, from);
    } else if r.Ok? {
      if s.SettingsArrive? {
        SettingsFacts(c, s.params);
      } else if Wide(s) {
        CreditSound(c, s.increment);
      } else {
        StepHandled(c, s);
      }
      QuietKeepsPatience(c, r.value, About(s), id, from);
    }
  }

  /** Before each thing that happens the stream is still waiting, or has been
      served already. */
  ghost predicate WaitsThrough(c: Conn, stimuli: seq<Stimulus>, id: StreamId, from: nat)
    requires Sound(c) && forall s :: s in stimuli ==> Fits(s)
    decreases |stimuli|
  {
    stimuli == [] ||
    (&& (Served(Since(c, from), id) || Waiting(c, id))
     && (StepSound(c, stimuli[0]);
         Step(c, stimuli[0]).Ok? ==> WaitsThrough(Step(c, stimuli[0]).value, stimuli[1..], id, from)))
  }

  /** Whatever happens while a stream waits, in whatever order and with whatever
      credit, nobody else gets more than one frame of body out before it does. */
  lemma {:induction false} BoundedBypass(c: Conn, stimuli: seq<Stimulus>, id: StreamId, from: nat)
    requires Sound(c) && (forall s :: s in stimuli ==> Fits(s))
    requires Patient(c, id, from) && WaitsThrough(c, stimuli, id, from)
    ensures RunAll(c, stimuli).Ok? ==> Fair(Since(RunAll(c, stimuli).value, from), id)
    decreases |stimuli|
  {
    hide Sound, Step, Since, Served, Waiting, Fair;
    if stimuli != [] {
      StepSound(c, stimuli[0]);
      if Step(c, stimuli[0]).Ok? {
        StepKeepsPatience(c, stimuli[0], id, from);
        BoundedBypass(Step(c, stimuli[0]).value, stimuli[1..], id, from);
      }
    }
  }

  /** Patience begins whenever one looks. */
  lemma PatienceBegins(c: Conn, id: StreamId)
    ensures Patient(c, id, |Carrying(c.written)|)
  {
    assert Since(c, |Carrying(c.written)|) == [];
  }

  lemma {:induction false} FairMeaning(log: seq<Frame>, id: StreamId, k: nat, other: StreamId)
    requires (forall f :: f in log ==> f.Data?) && Fair(log, id)
    requires k <= |log| && !Served(log[..k], id) && other != id
    ensures CountOf(log[..k], other) <= 1
    ensures forall i :: 0 <= i < |log| ==> |log[i].data| <= SEND_BUDGET
    decreases |log|
  {
    if log != [] {
      var past := log[..|log| - 1];
      if k == |log| {
        assert log[..k] == log;
        AtMostOne(log, id);
        if k > 0 {
          assert past[..0] == [];
          FairMeaning(past, id, 0, other);
        }
      } else {
        assert past[..k] == log[..k];
        FairMeaning(past, id, k, other);
      }
    }
  }
}
