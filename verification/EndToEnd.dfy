/** From header lists at one end to header lists at the other: encode, cut into
    fragments, frame, chop the octets into reads, and read them back. */
module EndToEnd {
  import opened Octets
  import opened Frame
  import opened HpackTable
  import opened HpackCodec
  import opened HpackLockstep
  import opened HeaderBlocks

  /** One thing sent. A message names the table sizes asked for since the last
      block and how its encoded block is cut; any other frame travels whole. */
  datatype Sending =
    | Message(resizes: seq<nat>, stream: StreamId, headers: seq<Header>, endStream: bool, fragments: seq<seq<Octet>>)
    | Plain(frame: Frame)

  function FragmentFrame(stream: StreamId, endStream: bool, first: bool, fragment: seq<Octet>, last: bool): Frame {
    if first then Headers(stream, fragment, endStream, last) else Continuation(stream, fragment, last)
  }

  /** HEADERS for the first fragment, CONTINUATION for the others, END_HEADERS on
      the last. */
  function FragmentOctets(stream: StreamId, endStream: bool, first: bool, fragments: seq<seq<Octet>>): seq<Octet>
    requires fragments != []
    decreases |fragments|
  {
    var last := |fragments| == 1;
    Printed(FragmentFrame(stream, endStream, first, fragments[0], last)) +
    (if last then [] else FragmentOctets(stream, endStream, false, fragments[1..]))
  }

  /** Cut within the caps of the reading end. */
  predicate WithinCaps(cfg: Config, fragments: seq<seq<Octet>>) {
    && 0 < |fragments| <= cfg.maxContinuations + 1
    && |Flatten(fragments)| <= MAX_HEADER_BLOCK_BYTES
    && forall f :: f in fragments ==> |f| <= cfg.maxFrame
  }

  predicate MaySend(cfg: Config, e: EncoderState, s: Sending) {
    match s
    case Message(resizes, stream, headers, _, fragments) =>
      && (forall size :: size in resizes ==> size <= cfg.capacity)
      && stream != CONNECTION
      && AllSendable(headers)
      && WithinCaps(cfg, fragments)
      && Flatten(fragments) == ResizeAll(e, resizes).Block(headers)
    case Plain(f) =>
      && !f.Headers? && !f.Continuation?
      && WellFormed(f) && |PayloadOf(f)| <= cfg.maxFrame
  }

  function AfterSending(e: EncoderState, s: Sending): EncoderState {
    if s.Message? then ResizeAll(e, s.resizes).After(s.headers) else e
  }

  predicate MaySendAll(cfg: Config, e: EncoderState, sendings: seq<Sending>)
    decreases |sendings|
  {
    sendings == [] ||
    (MaySend(cfg, e, sendings[0]) && MaySendAll(cfg, AfterSending(e, sendings[0]), sendings[1..]))
  }

  function AfterAll(e: EncoderState, sendings: seq<Sending>): EncoderState
    decreases |sendings|
  {
    if sendings == [] then e else AfterAll(AfterSending(e, sendings[0]), sendings[1..])
  }

  function SendingOctets(cfg: Config, e: EncoderState, s: Sending): seq<Octet>
    requires MaySend(cfg, e, s)
  {
    match s
    case Message(_, stream, _, endStream, fragments) => FragmentOctets(stream, endStream, true, fragments)
    case Plain(f) => Printed(f)
  }

  function Wire(cfg: Config, e: EncoderState, sendings: seq<Sending>): seq<Octet>
    requires MaySendAll(cfg, e, sendings)
    decreases |sendings|
  {
    if sendings == [] then []
    else SendingOctets(cfg, e, sendings[0]) + Wire(cfg, AfterSending(e, sendings[0]), sendings[1..])
  }

  /** What the receiver ought to hand up, said without encoding anything. */
  function Expected(limit: Option<nat>, s: Sending): Delivery {
    match s
    case Message(_, stream, headers, endStream, _) =>
      if limit.Some? && ListSize(headers) > limit.value then ListTooLarge(stream)
      else Fields(stream, headers, endStream)
    case Plain(f) => Other(f)
  }

  function ExpectedAll(limit: Option<nat>, sendings: seq<Sending>): seq<Delivery>
    decreases |sendings|
  {
    if sendings == [] then [] else [Expected(limit, sendings[0])] + ExpectedAll(limit, sendings[1..])
  }

  /** No header block is being put together. */
  predicate Idle(a: Assembly) {
    a.open == None && a.block == [] && a.continuations == 0
  }

  lemma DrainPrinted(cfg: Config, r: Reading, f: Frame, rest: seq<Octet>)
    requires WellFormed(f) && |PayloadOf(f)| <= cfg.maxFrame <= MAX_ALLOWED_FRAME_SIZE
    requires OnDecoded(cfg, r, Typed(f)).Went?
    ensures var turn := OnDecoded(cfg, r, Typed(f));
            Drain(cfg, r, Printed(f) + rest) == After(turn.out, Drain(cfg, turn.reading, rest))
  {
    hide OnDecoded, Write, DecodeAny;
    FrameRoundTrip(f, cfg.maxFrame, rest);
  }

  /** A block cut into any fragments within the caps is put together again and
      decoded as one. */
  lemma {:induction false} FragmentsAssemble(cfg: Config, r: Reading, stream: StreamId, endStream: bool,
                                             first: bool, fragments: seq<seq<Octet>>, rest: seq<Octet>)
    requires fragments != [] && stream != CONNECTION && cfg.maxFrame <= MAX_ALLOWED_FRAME_SIZE
    requires if first then Idle(r.assembly)
             else r.assembly.open == Some(stream) && r.assembly.endStream == endStream
    requires |r.assembly.block| + |Flatten(fragments)| <= MAX_HEADER_BLOCK_BYTES
    requires r.assembly.continuations + |fragments| <= cfg.maxContinuations + 1
    requires forall f :: f in fragments ==> |f| <= cfg.maxFrame
    requires Finish(cfg, r.table, stream, endStream, r.assembly.block + Flatten(fragments)).Went?
    ensures var done := Finish(cfg, r.table, stream, endStream, r.assembly.block + Flatten(fragments));
            Drain(cfg, r, FragmentOctets(stream, endStream, first, fragments) + rest)
            == After(done.out, Drain(cfg, done.reading, rest))
    decreases |fragments|
  {
    hide Finish, Drain, Printed;
    var last := |fragments| == 1;
    var f := FragmentFrame(stream, endStream, first, fragments[0], last);
    var block := r.assembly.block;
    assert fragments[0] in fragments;
    if last {
      assert Flatten(fragments[1..]) == [];
      assert Flatten(fragments) == fragments[0];
      assert Printed(f) + [] + rest == Printed(f) + rest;
      DrainPrinted(cfg, r, f, rest);
    } else {
      var tail := fragments[1..];
      assert Flatten(fragments) == fragments[0] + Flatten(tail);
      assert block + Flatten(fragments) == (block + fragments[0]) + Flatten(tail);
      assert forall t :: t in tail ==> t in fragments;
      var after := FragmentOctets(stream, endStream, false, tail);
      var turn := OnDecoded(cfg, r, Typed(f));
      assert turn.Went? && turn.out == [];
      assert Printed(f) + after + rest == Printed(f) + (after + rest);
      DrainPrinted(cfg, r, f, after + rest);
      FragmentsAssemble(cfg, turn.reading, stream, endStream, false, tail, rest);
      AfterNothing(Drain(cfg, turn.reading, after + rest));
    }
  }

  /** One sending arrives as what was meant, and the two ends stay in step. */
  lemma SendingArrives(cfg: Config, e: EncoderState, r: Reading, s: Sending, rest: seq<Octet>) returns (next: Reading)
    requires Idle(r.assembly) && InStep(e, r.table, cfg.capacity)
    requires cfg.maxFrame <= MAX_ALLOWED_FRAME_SIZE && MaySend(cfg, e, s)
    ensures Idle(next.assembly) && InStep(AfterSending(e, s), next.table, cfg.capacity)
    ensures Drain(cfg, r, SendingOctets(cfg, e, s) + rest)
            == After([Expected(cfg.limit, s)], Drain(cfg, next, rest))
  {
    hide InStep, Drain, FragmentOctets, DecodeFrom, ResizeAll, AllSendable, ListSize, EncoderState.Block, EncoderState.After;
    match s
    case Message(resizes, stream, headers, endStream, fragments) =>
      var resized := ResizeAll(e, resizes);
      ResizesKeepStep(e, r.table, cfg.capacity, resizes);
      BlockDecodes(resized, r.table, cfg.capacity, headers);
      assert [] + Flatten(fragments) == Flatten(fragments);
      FragmentsAssemble(cfg, r, stream, endStream, true, fragments, rest);
      next := Finish(cfg, r.table, stream, endStream, Flatten(fragments)).reading;
    case Plain(f) =>
      DrainPrinted(cfg, r, f, rest);
      next := r;
  }

  /** Everything sent is handed up in order, exactly, and nothing is left over. */
  lemma {:induction false} AllArrive(cfg: Config, e: EncoderState, r: Reading, sendings: seq<Sending>) returns (last: Reading)
    requires Idle(r.assembly) && InStep(e, r.table, cfg.capacity)
    requires cfg.maxFrame <= MAX_ALLOWED_FRAME_SIZE && MaySendAll(cfg, e, sendings)
    ensures Idle(last.assembly) && InStep(AfterAll(e, sendings), last.table, cfg.capacity)
    ensures Drain(cfg, r, Wire(cfg, e, sendings)) == Drained(ExpectedAll(cfg.limit, sendings), last, [], None)
    decreases |sendings|
  {
    hide InStep, Drain, MaySend, SendingOctets, DecodeAny, Expected;
    if sendings == [] {
      EmptyIsUndecided(cfg.maxFrame);
      SettledDrain(cfg, r, []);
      last := r;
    } else {
      var e1 := AfterSending(e, sendings[0]);
      var next := SendingArrives(cfg, e, r, sendings[0], Wire(cfg, e1, sendings[1..]));
      last := AllArrive(cfg, e1, next, sendings[1..]);
    }
  }

  lemma EmptyIsUndecided(max: nat)
    ensures DecodeAny(max, []) == NeedMore
  {
  }

  /** The whole path. Whatever lists are sent, however their blocks are cut into
      HEADERS and CONTINUATION frames within the caps, whatever frames travel
      between them, and however the octets are chopped into reads, the receiver
      hands up exactly those lists, in order, each with the END_STREAM of the
      HEADERS that opened it. */
  lemma {:induction false} Delivered(cfg: Config, e: EncoderState, r: Reading, sendings: seq<Sending>, chunks: seq<seq<Octet>>)
    requires Idle(r.assembly) && InStep(e, r.table, cfg.capacity)
    requires cfg.maxFrame <= MAX_ALLOWED_FRAME_SIZE && MaySendAll(cfg, e, sendings)
    requires Flatten(chunks) == Wire(cfg, e, sendings)
    ensures var d := Feed(cfg, r, [], chunks);
            && d.out == ExpectedAll(cfg.limit, sendings)
            && d.failure == None && d.left == []
            && Idle(d.reading.assembly) && InStep(AfterAll(e, sendings), d.reading.table, cfg.capacity)
  {
    hide InStep, Drain, Feed, MaySendAll, Wire, DecodeAny, ExpectedAll, AfterAll;
    EmptyIsUndecided(cfg.maxFrame);
    CutsDoNotMatter(cfg, r, [], chunks);
    assert [] + Flatten(chunks) == Flatten(chunks);
    var last := AllArrive(cfg, e, r, sendings);
  }
}
