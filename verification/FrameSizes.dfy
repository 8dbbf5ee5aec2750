/** Which frames fit the peer's SETTINGS_MAX_FRAME_SIZE, on either connection: DATA
    always does, by the writer's budget, and the frames of fixed size do; a HEADERS
    goes out in one piece and fits exactly if its block does. And a block is hardly
    longer than the list it encodes, so short lists always fit. */
module FrameSizes {
  import opened Octets
  import opened Frame
  import opened Flow
  import Huffman
  import opened HpackPrimitives
  import HpackTable
  import opened HpackCodec
  import CL = ClientLeg
  import CR = ClientRuns
  import Ring
  import CH = ClientHeads
  import U = Upstream
  import R = Remapping
  import opened UpstreamSteps
  import Waiting
  import CB = ClientBreaks

  // -------------------------------------------------------------------------
  // Frames added by a step.
  // -------------------------------------------------------------------------

  predicate NewFit(before: seq<Frame>, after: seq<Frame>, max: nat) {
    forall i :: |before| <= i < |after| ==> FitsIn(after[i], max)
  }

  predicate NewHeadsFit(before: seq<Frame>, after: seq<Frame>, max: nat) {
    forall i :: |before| <= i < |after| && after[i].Headers? ==> |after[i].block| <= max
  }

  lemma HeadsDecide(before: seq<Frame>, after: seq<Frame>, max: nat)
    requires Lengthens(before, after, max) && max >= 8
    ensures NewFit(before, after, max) <==> NewHeadsFit(before, after, max)
  {
    if NewHeadsFit(before, after, max) {
      forall i | |before| <= i < |after|
        ensures FitsIn(after[i], max)
      {
      }
    }
    if NewFit(before, after, max) {
      forall i | |before| <= i < |after| && after[i].Headers?
        ensures |after[i].block| <= max
      {
        assert FitsIn(after[i], max);
      }
    }
  }

  // -------------------------------------------------------------------------
  // The client connection.
  // -------------------------------------------------------------------------

  /** Every frame of a run fits the limit in force when it is queued. */
  ghost predicate ClientFits(c: CL.Conn, stimuli: seq<CR.Stimulus>)
    requires Ring.Sound(c) && forall s :: s in stimuli ==> CR.Fits(s)
    decreases |stimuli|
  {
    stimuli == [] ||
    (CR.StepSound(c, stimuli[0]);
     CR.Step(c, stimuli[0]).Ok? ==>
       var d := CR.Step(c, stimuli[0]).value;
       NewFit(c.written, d.written, c.peer.maxFrame) && ClientFits(d, stimuli[1..]))
  }

  ghost predicate ClientHeadsFit(c: CL.Conn, stimuli: seq<CR.Stimulus>)
    requires Ring.Sound(c) && forall s :: s in stimuli ==> CR.Fits(s)
    decreases |stimuli|
  {
    stimuli == [] ||
    (CR.StepSound(c, stimuli[0]);
     CR.Step(c, stimuli[0]).Ok? ==>
       var d := CR.Step(c, stimuli[0]).value;
       NewHeadsFit(c.written, d.written, c.peer.maxFrame) && ClientHeadsFit(d, stimuli[1..]))
  }

  lemma {:induction false} ClientFitsExactly(c: CL.Conn, stimuli: seq<CR.Stimulus>)
    requires Ring.Sound(c) && forall s :: s in stimuli ==> CR.Fits(s)
    ensures ClientFits(c, stimuli) <==> ClientHeadsFit(c, stimuli)
    decreases |stimuli|
  {
    if stimuli != [] {
      hide Ring.Sound, CR.Step, CH.Begun, CH.Early, NewFit, NewHeadsFit, Lengthens;
      CR.StepSound(c, stimuli[0]);
      if CR.Step(c, stimuli[0]).Ok? {
        CH.StepBegun(c, stimuli[0]);
        SoundIsAmple(c);
        HeadsDecide(c.written, CR.Step(c, stimuli[0]).value.written, c.peer.maxFrame);
        ClientFitsExactly(CR.Step(c, stimuli[0]).value, stimuli[1..]);
      }
    }
  }

  lemma SoundIsAmple(c: CL.Conn)
    requires Ring.Sound(c)
    ensures c.peer.maxFrame >= 8
  {
  }

  // -------------------------------------------------------------------------
  // The backend connection.
  // -------------------------------------------------------------------------

  predicate Ample(u: U.Up) {
    u.peer.maxFrame >= CL.DEFAULT_MAX_FRAME_SIZE
  }

  lemma CreditExtends(u: U.Up, id: StreamId, increment: U32)
    requires U.OnWindowUpdate(u, id, increment).Ok?
    ensures Extends(u, U.OnWindowUpdate(u, id, increment).value)
  {
    hide ErrorNumber, Extends;
    LittleExtends(u, U.OnWindowUpdate(u, id, increment).value);
  }

  lemma SettingsLengthen(u: U.Up, params: seq<Param>)
    requires Ample(u) && U.OnSettings(u, params).Ok?
    ensures var v := U.OnSettings(u, params).value; Lengthens(u.written, v.written, u.peer.maxFrame) && Ample(v)
  {
    hide CL.ApplySettings, U.LimitIn;
    CR.SettingsBound(u.peer, params);
    CH.AckLengthens(u.written, u.peer.maxFrame);
  }

  lemma StepLengthens(u: U.Up, s: R.UpStep)
    requires Ample(u) && R.Fits(u, s) && R.Advance(u, s).Ok?
    ensures var v := R.Advance(u, s).value; Lengthens(u.written, v.written, u.peer.maxFrame) && Ample(v)
  {
    hide U.OnMessage, U.OnResponse, U.FailStream, U.OnData, U.OnRst, U.OnWindowUpdate, U.OnSettings, U.OnGoAway, U.VisitReady,
      Steady, Within, Lineup, Lengthens, Waiting.Overtakes;
    if s.SettingsArrive? {
      SettingsLengthen(u, s.params);
    } else if s.CreditArrives? {
      CreditExtends(u, s.id, s.increment);
    } else if s.Hears? && s.message.Request? {
      Waiting.RequestSteps(u, s.message);
    } else {
      StepKeeps(u, s);
    }
  }

  ghost predicate BackendFits(u: U.Up, steps: seq<R.UpStep>)
    requires R.Plausible(u, steps)
    decreases |steps|
  {
    steps != [] && R.Advance(u, steps[0]).Ok? ==>
      var v := R.Advance(u, steps[0]).value;
      NewFit(u.written, v.written, u.peer.maxFrame) && BackendFits(v, steps[1..])
  }

  ghost predicate BackendHeadsFit(u: U.Up, steps: seq<R.UpStep>)
    requires R.Plausible(u, steps)
    decreases |steps|
  {
    steps != [] && R.Advance(u, steps[0]).Ok? ==>
      var v := R.Advance(u, steps[0]).value;
      NewHeadsFit(u.written, v.written, u.peer.maxFrame) && BackendHeadsFit(v, steps[1..])
  }

  lemma {:induction false} BackendFitsExactly(u: U.Up, steps: seq<R.UpStep>)
    requires Ample(u) && R.Plausible(u, steps)
    ensures BackendFits(u, steps) <==> BackendHeadsFit(u, steps)
    decreases |steps|
  {
    if steps != [] && R.Advance(u, steps[0]).Ok? {
      hide R.Advance, NewFit, NewHeadsFit, Lengthens, R.Honest;
      StepLengthens(u, steps[0]);
      HeadsDecide(u.written, R.Advance(u, steps[0]).value.written, u.peer.maxFrame);
      BackendFitsExactly(R.Advance(u, steps[0]).value, steps[1..]);
    }
  }

  // -------------------------------------------------------------------------
  // How long a block is.
  // -------------------------------------------------------------------------

  function SevenBits(k: nat): nat {
    if k == 0 then 1 else 128 * SevenBits(k - 1)
  }

  lemma {:induction false} TailFits(rest: nat, k: nat)
    requires rest < SevenBits(k) && k >= 1
    ensures |EncodeTail(rest)| <= k
    decreases k
  {
    if rest >= 128 {
      TailFits(rest / 128, k - 1);
    }
  }

  lemma IntFits(value: nat, prefix: nat, high: Octet)
    requires 4 <= prefix <= 7 && high + Mask(prefix) < 256 && value <= U32_MAX
    ensures |EncodeInt(value, prefix, high)| <= 6
  {
    if value >= Mask(prefix) {
      assert SevenBits(3) == 0x20_0000;
      assert SevenBits(5) == 0x8_0000_0000;
      TailFits(value - Mask(prefix), 5);
    }
  }

  lemma StringFits(s: seq<Octet>, huffman: bool)
    requires |s| <= U32_MAX
    ensures |EncodeString(s, huffman)| <= |s| + 6
  {
    Huffman.EncodedLenExact(s);
    IntFits(|s|, 7, 0);
    if Huffman.EncodedLen(s) <= |s| {
      IntFits(Huffman.EncodedLen(s), 7, 128);
    }
  }

  /** A field takes no more octets than section 4.1 of RFC 7541 counts it as. */
  lemma FieldFits(t: HpackTable.Table, huffman: bool, h: Header)
    requires t.Fits() && t.max <= U32_MAX && HpackTable.Cost(h.AsField()) <= U32_MAX
    ensures |EncodeOne(t, huffman, h).octets| <= HpackTable.Cost(h.AsField())
    ensures EncodeOne(t, huffman, h).table.Fits() && EncodeOne(t, huffman, h).table.max == t.max
  {
    hide HpackTable.Table.Find, EncodeInt, EncodeString;
    HpackTable.FindIsBest(t, h.AsField());
    HpackTable.EntryCount(t.entries);
    HpackTable.InsertFits(t, h.AsField());
    StringFits(h.name, huffman);
    StringFits(h.value, huffman);
    var m := t.Find(h.AsField());
    if !m.NoMatch? {
      IntFits(m.index, 4, 0x10);
      IntFits(m.index, 7, 0x80);
      IntFits(m.index, 6, 0x40);
    }
  }

  lemma {:induction false} FieldsFit(t: HpackTable.Table, huffman: bool, headers: seq<Header>)
    requires t.Fits() && t.max <= U32_MAX && ListSize(headers) <= U32_MAX
    ensures |EncodeAll(t, huffman, headers).octets| <= ListSize(headers)
    decreases |headers|
  {
    if headers != [] {
      hide EncodeOne;
      assert headers == [headers[0]] + headers[1..];
      ListSizeConcat([headers[0]], headers[1..]);
      SizeOfOne(headers[0]);
      FieldFits(t, huffman, headers[0]);
      FieldsFit(EncodeOne(t, huffman, headers[0]).table, huffman, headers[1..]);
    }
  }

  lemma SizeOfOne(h: Header)
    ensures ListSize([h]) == HpackTable.Cost(h.AsField())
  {
    assert [h][..0] == [];
  }

  /** A block is at most six octets, a size update's, longer than its list is counted
      as; so HEADERS for any list of up to 16 MiB less that can be framed. */
  lemma BlockFits(e: EncoderState, headers: seq<Header>)
    requires e.table.Fits() && e.table.max <= U32_MAX && (e.pending.Some? ==> e.pending.value <= U32_MAX)
    requires ListSize(headers) <= U32_MAX
    ensures |e.Block(headers)| <= ListSize(headers) + 6
  {
    hide EncodeAll, EncodeInt;
    FieldsFit(e.table, e.huffman, headers);
    if e.pending.Some? {
      IntFits(e.pending.value, 5, 0x20);
    }
  }

  // -------------------------------------------------------------------------
  // A head that does not fit.
  // -------------------------------------------------------------------------

  function Zeros(n: nat): seq<Octet> {
    if n == 0 then [] else [0] + Zeros(n - 1)
  }

  /** An octet whose code is longer than itself goes out as it is. */
  lemma {:induction false} ZerosStayRaw(n: nat)
    ensures |Zeros(n)| == n && Huffman.CodedLength(Zeros(n)) == 13 * n
  {
    if n > 0 {
      ZerosStayRaw(n - 1);
      assert Zeros(n)[1..] == Zeros(n - 1);
    }
  }

  const LONG := [Header([0x61], Zeros(CL.DEFAULT_MAX_FRAME_SIZE), true)]

  lemma LongBlock(e: EncoderState)
    requires e.table.Fits() && e.table.max <= U32_MAX && e.pending == None && e.huffman
    ensures CL.DEFAULT_MAX_FRAME_SIZE < |e.Block(LONG)| <= MAX_ALLOWED_FRAME_SIZE
  {
    hide EncodeAll, EncodeOne, Zeros;
    var h := LONG[0];
    ZerosStayRaw(CL.DEFAULT_MAX_FRAME_SIZE);
    SizeOfOne(h);
    BlockFits(e, LONG);
    assert LONG == [h];
    OneAlone(e, h);
    ValueGoesOut(e.table, h);
  }

  lemma OneAlone(e: EncoderState, h: Header)
    requires e.pending == None
    ensures e.Block([h]) == EncodeOne(e.table, e.huffman, h).octets
  {
    hide EncodeOne;
    var one := EncodeOne(e.table, e.huffman, h);
    assert [h][0] == h && [h][1..] == [];
    assert EncodeAll(one.table, e.huffman, []).octets == [];
    assert EncodeAll(e.table, e.huffman, [h]).octets == one.octets + [];
    assert [] + (one.octets + []) == one.octets;
  }

  /** A sensitive field's value is always spelled out. */
  lemma ValueGoesOut(t: HpackTable.Table, h: Header)
    requires h.sensitive && Huffman.EncodedLen(h.value) > |h.value|
    ensures |EncodeOne(t, true, h).octets| > |h.value|
  {
    hide HpackTable.Table.Find, EncodeInt;
  }

  /** A head longer than the peer takes goes out all the same. */
  lemma LongHeadDoesNotFit(maxConcurrent: U32, window: CL.WindowSize, streamWindow: CL.WindowSize)
    requires maxConcurrent >= 1
    ensures var c := CR.NewConn(maxConcurrent, window, streamWindow);
            var run := [CB.ASKED, CR.FromService(CL.Head(1, LONG, false))];
            && Ring.Sound(c) && (forall s :: s in run ==> CR.Fits(s))
            && CR.RunAll(c, run).Ok? && !ClientFits(c, run)
  {
    hide CR.NewConn, CR.Step, Ring.Sound, CL.OnService, NewFit;
    var c := CR.NewConn(maxConcurrent, window, streamWindow);
    var head := CR.FromService(CL.Head(1, LONG, false));
    var c1 := LongAsked(maxConcurrent, window, streamWindow);
    CR.StepSound(c, CB.ASKED);
    CR.StepSound(c1, head);
    assert [CB.ASKED, head][1..] == [head] && [head][1..] == [];
    var c2 := CR.Step(c1, head).value;
    assert ClientFits(c1, [head]) ==> NewFit(c1.written, c2.written, c1.peer.maxFrame);
    assert CR.RunAll(c1, [head]) == Ok(c2);
  }

  lemma LongAsked(maxConcurrent: U32, window: CL.WindowSize, streamWindow: CL.WindowSize) returns (c1: CL.Conn)
    requires maxConcurrent >= 1
    ensures var c := CR.NewConn(maxConcurrent, window, streamWindow);
            var head := CR.FromService(CL.Head(1, LONG, false));
            && Ring.Sound(c) && CR.Step(c, CB.ASKED) == Ok(c1) && Ring.Sound(c1)
            && CR.Step(c1, head).Ok? && !NewFit(c1.written, CR.Step(c1, head).value.written, c1.peer.maxFrame)
  {
    hide Ring.Sound, CL.OnRequest, EncoderState.Block, NewFit;
    var c := CR.NewConn(maxConcurrent, window, streamWindow);
    CB.AfterAsking(maxConcurrent, window, streamWindow);
    CR.StepSound(c, CB.ASKED);
    c1 := CR.Step(c, CB.ASKED).value;
    PeerAfterAsking(maxConcurrent, window, streamWindow);
    LongBlock(c1.encoder);
    LongGoesOut(c1);
  }

  lemma PeerAfterAsking(maxConcurrent: U32, window: CL.WindowSize, streamWindow: CL.WindowSize)
    requires maxConcurrent >= 1
    ensures var c := CR.NewConn(maxConcurrent, window, streamWindow);
            var r := CL.OnRequest(c, 1, [], false, CL.Wellformed(None));
            r.Ok? && r.value.peer.maxFrame == CL.DEFAULT_MAX_FRAME_SIZE
  {
  }

  lemma LongGoesOut(c: CL.Conn)
    requires c.streams.live.Keys == {1} && c.streams.live[1].state.Open?
    requires c.peer.maxFrame == CL.DEFAULT_MAX_FRAME_SIZE < |c.encoder.Block(LONG)| <= MAX_ALLOWED_FRAME_SIZE
    ensures var r := CL.OnService(c, CL.Head(1, LONG, false));
            r.Ok? && !NewFit(c.written, r.value.written, c.peer.maxFrame)
  {
    hide EncoderState.Block, EncoderState.After;
    var f := Headers(1, c.encoder.Block(LONG), false, true);
    var r := CL.OnService(c, CL.Head(1, LONG, false));
    assert r.value.written == c.written + [f];
    assert r.value.written[|c.written|] == f;
    assert !FitsIn(f, c.peer.maxFrame);
  }
}
