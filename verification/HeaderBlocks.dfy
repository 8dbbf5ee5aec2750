/** Header blocks across frames and reads (RFC 9113 sections 4.3 and 6.10): the
    rule that nothing may come between a HEADERS and its CONTINUATIONs, the
    reassembly of the block they carry, and the reading loop that drives both. */
module HeaderBlocks {
  import opened Octets
  import opened Frame
  import opened HpackTable
  import opened HpackCodec

  const MAX_HEADER_BLOCK_BYTES: nat := 65536

  /** The limits one connection reads under. */
  datatype Config = Config(maxFrame: nat, capacity: nat, limit: Option<nat>, maxContinuations: nat)

  datatype Failure =
    | Framing(frame: FrameError)
    | Interleaved
    | NothingToContinue
    | BlockTooLarge
    | TooManyContinuations
    | Hpack(fault: HpackError)

  /** A block being put together: the stream it is for, the END_STREAM of the
      HEADERS that opened it, its octets so far, and how many frames they took. */
  datatype Assembly = Assembly(open: Option<StreamId>, endStream: bool, block: seq<Octet>, continuations: nat)

  /** What the layer above is handed. */
  datatype Delivery =
    | Fields(stream: StreamId, headers: seq<Header>, endStream: bool)
    | ListTooLarge(stream: StreamId)
    | Other(frame: Frame)

  /** Everything about a reading connection but the octets it has not looked at. */
  datatype Reading = Reading(assembly: Assembly, table: Table)

  datatype Turn =
    | Went(reading: Reading, out: seq<Delivery>)
    | Stopped(why: Failure)

  /** A finished block is decoded against the table and leaves a new one. */
  ghost function Finish(cfg: Config, t: Table, stream: StreamId, endStream: bool, block: seq<Octet>): Turn {
    var o := DecodeFrom(t, cfg.capacity, true, block);
    var closed := Reading(Assembly(None, endStream, [], 0), o.table);
    match Verdict(o, cfg.limit)
    case Ok(headers) => Went(closed, [Fields(stream, headers, endStream)])
    case Err(HeaderListTooLarge(_, _)) => Went(closed, [ListTooLarge(stream)])
    case Err(Compression(fault)) => Stopped(Hpack(Compression(fault)))
  }

  /** One fragment of a block. */
  ghost function OnFragment(cfg: Config, r: Reading, stream: StreamId, fragment: seq<Octet>, endHeaders: bool): Turn {
    var a := r.assembly;
    if |a.block| + |fragment| > MAX_HEADER_BLOCK_BYTES then Stopped(BlockTooLarge)
    else if endHeaders then Finish(cfg, r.table, stream, a.endStream, a.block + fragment)
    else if a.continuations + 1 > cfg.maxContinuations then Stopped(TooManyContinuations)
    else Went(r.(assembly := Assembly(Some(stream), a.endStream, a.block + fragment, a.continuations + 1)), [])
  }

  ghost function OnDecoded(cfg: Config, r: Reading, d: Decoded): Turn {
    match d
    case Ignored(_, _) => if r.assembly.open.Some? then Stopped(Interleaved) else Went(r, [])
    case Typed(f) =>
      if r.assembly.open.Some? && !(f.Continuation? && f.stream == r.assembly.open.value) then Stopped(Interleaved)
      else if r.assembly.open.None? && f.Continuation? then Stopped(NothingToContinue)
      else
        match f
        case Headers(stream, block, endStream, endHeaders) =>
          OnFragment(cfg, r.(assembly := r.assembly.(endStream := endStream)), stream, block, endHeaders)
        case Continuation(stream, block, endHeaders) => OnFragment(cfg, r, stream, block, endHeaders)
        case _ => Went(r, [Other(f)])
  }

  // -------------------------------------------------------------------------
  // Draining a buffer, and why the cuts between reads do not matter.
  // -------------------------------------------------------------------------

  /** What came out, what is still unread, and why reading stopped, if it did. */
  datatype Drained = Drained(out: seq<Delivery>, reading: Reading, left: seq<Octet>, failure: Option<Failure>)

  function After(out: seq<Delivery>, d: Drained): Drained {
    d.(out := out + d.out)
  }

  /** Every whole frame in the buffer, in order. */
  ghost function Drain(cfg: Config, r: Reading, buf: seq<Octet>): Drained
    decreases |buf|
  {
    GotShrinks(cfg.maxFrame, buf);
    match DecodeAny(cfg.maxFrame, buf)
    case NeedMore => Drained([], r, buf, None)
    case Bad(e) => Drained([], r, [], Some(Framing(e)))
    case Got(d, rest) =>
      match OnDecoded(cfg, r, d)
      case Stopped(why) => Drained([], r, [], Some(why))
      case Went(next, out) => After(out, Drain(cfg, next, rest))
  }

  /** The octets arriving in pieces, each drained as far as it goes. */
  ghost function Feed(cfg: Config, r: Reading, buf: seq<Octet>, chunks: seq<seq<Octet>>): Drained
    decreases |chunks|
  {
    if chunks == [] then Drained([], r, buf, None)
    else
      var first := Drain(cfg, r, buf + chunks[0]);
      if first.failure.Some? then first
      else After(first.out, Feed(cfg, first.reading, first.left, chunks[1..]))
  }

  function Flatten(chunks: seq<seq<Octet>>): seq<Octet>
    decreases |chunks|
  {
    if chunks == [] then [] else chunks[0] + Flatten(chunks[1..])
  }

  lemma AfterTwice(a: seq<Delivery>, b: seq<Delivery>, d: Drained)
    ensures After(a, After(b, d)) == After(a + b, d)
  {
    assert a + (b + d.out) == (a + b) + d.out;
  }

  lemma AfterNothing(d: Drained)
    ensures After([], d) == d
  {
    assert [] + d.out == d.out;
  }

  lemma {:induction false} DrainAppend(cfg: Config, r: Reading, buf: seq<Octet>, more: seq<Octet>)
    ensures var first := Drain(cfg, r, buf);
            Drain(cfg, r, buf + more) ==
            if first.failure.Some? then first
            else After(first.out, Drain(cfg, first.reading, first.left + more))
    decreases |buf|
  {
    hide DecodeAny, OnDecoded;
    GotShrinks(cfg.maxFrame, buf);
    DecodeStable(cfg.maxFrame, buf, more);
    match DecodeAny(cfg.maxFrame, buf)
    case NeedMore =>
      AfterNothing(Drain(cfg, r, buf + more));
    case Bad(_) =>
    case Got(d, rest) =>
      match OnDecoded(cfg, r, d)
      case Stopped(_) =>
      case Went(next, out) =>
        DrainAppend(cfg, next, rest, more);
        var first := Drain(cfg, next, rest);
        AfterTwice(out, first.out, Drain(cfg, first.reading, first.left + more));
  }

  /** What a drain leaves is not a whole frame. */
  lemma {:induction false} DrainSettles(cfg: Config, r: Reading, buf: seq<Octet>)
    ensures var d := Drain(cfg, r, buf); d.failure == None ==> DecodeAny(cfg.maxFrame, d.left) == NeedMore
    decreases |buf|
  {
    hide OnDecoded;
    GotShrinks(cfg.maxFrame, buf);
    match DecodeAny(cfg.maxFrame, buf)
    case NeedMore =>
    case Bad(_) =>
    case Got(d, rest) =>
      match OnDecoded(cfg, r, d)
      case Stopped(_) =>
      case Went(next, _) => DrainSettles(cfg, next, rest);
  }

  /** However the octets are cut into reads, the same deliveries come out, reading
      stops at the same violation, and the same octets are left over. */
  lemma {:induction false} CutsDoNotMatter(cfg: Config, r: Reading, buf: seq<Octet>, chunks: seq<seq<Octet>>)
    requires DecodeAny(cfg.maxFrame, buf) == NeedMore
    ensures Feed(cfg, r, buf, chunks) == Drain(cfg, r, buf + Flatten(chunks))
    decreases |chunks|
  {
    hide DecodeAny, OnDecoded, Drain;
    if chunks == [] {
      assert buf + [] == buf;
      SettledDrain(cfg, r, buf);
    } else {
      var first := Drain(cfg, r, buf + chunks[0]);
      assert buf + (chunks[0] + Flatten(chunks[1..])) == (buf + chunks[0]) + Flatten(chunks[1..]);
      DrainAppend(cfg, r, buf + chunks[0], Flatten(chunks[1..]));
      DrainSettles(cfg, r, buf + chunks[0]);
      if first.failure == None {
        CutsDoNotMatter(cfg, first.reading, first.left, chunks[1..]);
      }
    }
  }

  lemma SettledDrain(cfg: Config, r: Reading, buf: seq<Octet>)
    requires DecodeAny(cfg.maxFrame, buf) == NeedMore
    ensures Drain(cfg, r, buf) == Drained([], r, buf, None)
  {
  }

  // -------------------------------------------------------------------------
  // The reader as it runs.
  // -------------------------------------------------------------------------

  class BlockReader {
    const decoder: HpackDecoder
    const maxContinuations: nat
    var openBlock: Option<StreamId>
    var openEndStream: bool
    var headerBlock: seq<Octet>
    var continuations: nat

    ghost predicate Valid()
      reads this, decoder.table
    {
      decoder.table.Valid()
    }

    ghost function State(): Reading
      reads this, decoder.table
    {
      Reading(Assembly(openBlock, openEndStream, headerBlock, continuations), decoder.table.Model())
    }

    ghost function Limits(maxFrame: nat): Config {
      Config(maxFrame, decoder.capacity, decoder.limit, maxContinuations)
    }

    constructor (capacity: nat, limit: Option<nat>, maxContinuations: nat)
      ensures fresh(decoder.table) && Valid()
      ensures State() == Reading(Assembly(None, false, [], 0), Table([], capacity))
      ensures forall maxFrame :: Limits(maxFrame) == Config(maxFrame, capacity, limit, maxContinuations)
    {
      decoder := new HpackDecoder(capacity, limit);
      this.maxContinuations := maxContinuations;
      openBlock, openEndStream, headerBlock, continuations := None, false, [], 0;
    }

    /** Take one fragment, decoding once END_HEADERS arrives. */
    method ReadFragment(stream: StreamId, fragment: seq<Octet>, endHeaders: bool, ghost maxFrame: nat)
      returns (r: Result<seq<Delivery>, Failure>)
      requires Valid()
      modifies this, decoder.table
      ensures Valid()
      ensures match OnFragment(Limits(maxFrame), old(State()), stream, fragment, endHeaders)
              case Stopped(why) => r == Err(why)
              case Went(next, out) =>
                r == Ok(out) && State() == next.(assembly := next.assembly.(open := old(openBlock)))
    {
      hide DecodeFrom, ListSize;
      var pending := |headerBlock|;
      if pending + |fragment| > MAX_HEADER_BLOCK_BYTES {
        headerBlock := [];
        return Err(BlockTooLarge);
      }
      var block: seq<Octet>;
      assert headerBlock == [] ==> headerBlock + fragment == fragment;
      if endHeaders && pending == 0 {
        continuations := 0;
        block := fragment;
      } else {
        headerBlock := headerBlock + fragment;
        if !endHeaders {
          continuations := continuations + 1;
          if continuations > maxContinuations {
            return Err(TooManyContinuations);
          }
          return Ok([]);
        }
        continuations := 0;
        block := headerBlock;
        headerBlock := [];
      }
      var decoded := decoder.Decode(block);
      match decoded {
        case Ok(headers) => r := Ok([Fields(stream, headers, openEndStream)]);
        case Err(HeaderListTooLarge(_, _)) => r := Ok([ListTooLarge(stream)]);
        case Err(Compression(fault)) => r := Err(Hpack(Compression(fault)));
      }
    }

    /** Act on one decoded frame, checking first that it may come here. */
    method OnFrame(d: Decoded, ghost maxFrame: nat) returns (r: Result<seq<Delivery>, Failure>)
      requires Valid()
      modifies this, decoder.table
      ensures Valid()
      ensures match OnDecoded(Limits(maxFrame), old(State()), d)
              case Stopped(why) => r == Err(why)
              case Went(next, out) => r == Ok(out) && State() == next
    {
      hide DecodeFrom, ListSize, Verdict;
      if d.Ignored? {
        return if openBlock.Some? then Err(Interleaved) else Ok([]);
      }
      var frame := d.frame;
      if openBlock.Some? {
        if !(frame.Continuation? && frame.stream == openBlock.value) {
          return Err(Interleaved);
        }
      } else if frame.Continuation? {
        return Err(NothingToContinue);
      }
      match frame {
        case Headers(stream, block, endStream, endHeaders) =>
          if openBlock.None? {
            openEndStream := endStream;
          }
          r := ReadFragment(stream, block, endHeaders, maxFrame);
          openBlock := if endHeaders then None else Some(stream);
        case Continuation(stream, block, endHeaders) =>
          r := ReadFragment(stream, block, endHeaders, maxFrame);
          openBlock := if endHeaders then None else Some(stream);
        case _ =>
          r := Ok([Other(frame)]);
      }
    }

    /** Drain every frame the buffer holds. */
    method ReadAll(codec: FrameCodec, buf: ReadBuffer) returns (out: seq<Delivery>, failure: Option<Failure>)
      requires Valid()
      modifies this, decoder.table, buf
      ensures Valid()
      ensures var d := Drain(Limits(codec.maxFrameSize), old(State()), old(buf.octets));
              && out == d.out && failure == d.failure
              && (failure == None ==> State() == d.reading && buf.octets == d.left)
    {
      hide DecodeAny, OnDecoded, Drain;
      out := [];
      ghost var cfg := Limits(codec.maxFrameSize);
      ghost var goal := Drain(cfg, State(), buf.octets);
      AfterNothing(goal);
      while true
        invariant Valid() && cfg == Limits(codec.maxFrameSize)
        invariant goal == After(out, Drain(cfg, State(), buf.octets))
        decreases |buf.octets|
      {
        DrainTurn(cfg, State(), buf.octets, out);
        GotShrinks(cfg.maxFrame, buf.octets);
        var taken := codec.TakeFrame(buf);
        if taken.Err? {
          return out, Some(Framing(taken.error));
        }
        if taken.value == None {
          return out, None;
        }
        var acted := OnFrame(taken.value.value, cfg.maxFrame);
        if acted.Err? {
          return out, Some(acted.error);
        }
        out := out + acted.value;
      }
    }
  }

  /** What one more turn of the reading loop leaves still to come. */
  ghost function TurnOf(cfg: Config, r: Reading, buf: seq<Octet>, out: seq<Delivery>): Drained {
    match DecodeAny(cfg.maxFrame, buf)
    case NeedMore => Drained(out, r, buf, None)
    case Bad(e) => Drained(out, r, [], Some(Framing(e)))
    case Got(d, rest) =>
      var turn := OnDecoded(cfg, r, d);
      if turn.Stopped? then Drained(out, r, [], Some(turn.why))
      else After(out + turn.out, Drain(cfg, turn.reading, rest))
  }

  lemma DrainTurn(cfg: Config, r: Reading, buf: seq<Octet>, out: seq<Delivery>)
    ensures After(out, Drain(cfg, r, buf)) == TurnOf(cfg, r, buf, out)
  {
    hide DecodeAny, OnDecoded;
    assert out + [] == out;
    if DecodeAny(cfg.maxFrame, buf).Got? {
      var got := DecodeAny(cfg.maxFrame, buf);
      var turn := OnDecoded(cfg, r, got.decoded);
      if turn.Went? {
        AfterTwice(out, turn.out, Drain(cfg, turn.reading, got.rest));
      }
    }
  }
}
