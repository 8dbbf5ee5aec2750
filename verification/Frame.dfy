/** The framing layer (RFC 9113 sections 4.1 and 6): octets to typed frames and
    back, and the streaming parser that never looks past one whole frame. */
module Frame {
  import opened Octets

  type StreamId = n: nat | n < 0x8000_0000

  const CONNECTION: StreamId := 0
  const FRAME_HEADER_LEN: nat := 9
  const MAX_ALLOWED_FRAME_SIZE: nat := 0xff_ffff
  const PRIORITY_FIELD_LEN: nat := 5

  datatype FrameType =
    | DataType | HeadersType | RstStreamType | SettingsType | PingType | GoAwayType
    | WindowUpdateType | ContinuationType
    | UnknownType(code: Octet)

  function TypeFrom(code: Octet): FrameType {
    match code
    case 0 => DataType
    case 1 => HeadersType
    case 3 => RstStreamType
    case 4 => SettingsType
    case 6 => PingType
    case 7 => GoAwayType
    case 8 => WindowUpdateType
    case 9 => ContinuationType
    case _ => UnknownType(code)
  }

  function TypeCode(kind: FrameType): Octet {
    match kind
    case DataType => 0
    case HeadersType => 1
    case RstStreamType => 3
    case SettingsType => 4
    case PingType => 6
    case GoAwayType => 7
    case WindowUpdateType => 8
    case ContinuationType => 9
    case UnknownType(code) => code
  }

  datatype ErrorCode =
    | NoError | ProtocolError | InternalError | FlowControlError | SettingsTimeout
    | StreamClosed | FrameSizeError | RefusedStream | Cancel | CompressionError
    | ConnectError | EnhanceYourCalm | InadequateSecurity | Http11Required

  function ErrorNumber(e: ErrorCode): nat {
    match e
    case NoError => 0
    case ProtocolError => 1
    case InternalError => 2
    case FlowControlError => 3
    case SettingsTimeout => 4
    case StreamClosed => 5
    case FrameSizeError => 6
    case RefusedStream => 7
    case Cancel => 8
    case CompressionError => 9
    case ConnectError => 10
    case EnhanceYourCalm => 11
    case InadequateSecurity => 12
    case Http11Required => 13
  }

  /** Unknown codes stand for INTERNAL_ERROR. */
  function ErrorFrom(n: nat): ErrorCode {
    match n
    case 0 => NoError
    case 1 => ProtocolError
    case 2 => InternalError
    case 3 => FlowControlError
    case 4 => SettingsTimeout
    case 5 => StreamClosed
    case 6 => FrameSizeError
    case 7 => RefusedStream
    case 8 => Cancel
    case 9 => CompressionError
    case 10 => ConnectError
    case 11 => EnhanceYourCalm
    case 12 => InadequateSecurity
    case 13 => Http11Required
    case _ => InternalError
  }

  // Flag bits, as the powers of two they are.
  const END_STREAM: nat := 0x1
  const ACK: nat := 0x1
  const END_HEADERS: nat := 0x4
  const PADDED: nat := 0x8
  const PRIORITY: nat := 0x20

  /** Whether the flag bit worth `bit` is set. */
  predicate Flag(flags: Octet, bit: nat)
    requires bit > 0
  {
    (flags / bit) % 2 == 1
  }

  function FlagIf(cond: bool, bit: nat): nat {
    if cond then bit else 0
  }

  datatype FrameHeader = FrameHeader(length: nat, kind: FrameType, flags: Octet, stream: StreamId)

  datatype Param = Param(id: nat, value: nat)

  datatype Frame =
    | Data(stream: StreamId, data: seq<Octet>, endStream: bool)
    | Headers(stream: StreamId, block: seq<Octet>, endStream: bool, endHeaders: bool)
    | Settings(ack: bool, params: seq<Param>)
    | WindowUpdate(stream: StreamId, increment: nat)
    | RstStream(stream: StreamId, error: ErrorCode)
    | Ping(payload: seq<Octet>, ack: bool)
    | GoAway(lastStream: StreamId, error: ErrorCode, debug: seq<Octet>)
    | Continuation(stream: StreamId, block: seq<Octet>, endHeaders: bool)

  datatype FrameError =
    | Oversized(len: nat, max: nat)
    | BadLength(kind: FrameType, len: nat)
    | BadStreamId(kind: FrameType)
    | PaddingOverflow(kind: FrameType)
    | UnexpectedPushPromise
    | SelfDependency(kind: FrameType)

  /** A decoded frame, or one that is consumed but not modelled. */
  datatype Decoded =
    | Typed(frame: Frame)
    | Ignored(kind: FrameType, stream: StreamId)

  // -------------------------------------------------------------------------
  // Big-endian fields.
  // -------------------------------------------------------------------------

  function Be16(v: nat): (s: seq<Octet>)
    requires v < 0x1_0000
    ensures |s| == 2
  {
    [v / 256, v % 256]
  }

  function Be24(v: nat): (s: seq<Octet>)
    requires v <= MAX_ALLOWED_FRAME_SIZE
    ensures |s| == 3
  {
    [v / 0x1_0000] + Be16(v % 0x1_0000)
  }

  function Be32(v: nat): (s: seq<Octet>)
    requires v < 0x1_0000_0000
    ensures |s| == 4
  {
    Be16(v / 0x1_0000) + Be16(v % 0x1_0000)
  }

  function From16(s: seq<Octet>): (v: nat)
    requires |s| >= 2
    ensures v < 0x1_0000
  {
    (s[0] as int) * 256 + s[1]
  }

  function From24(s: seq<Octet>): (v: nat)
    requires |s| >= 3
    ensures v <= MAX_ALLOWED_FRAME_SIZE
  {
    s[0] * 0x1_0000 + From16(s[1..])
  }

  function From32(s: seq<Octet>): (v: nat)
    requires |s| >= 4
    ensures v < 0x1_0000_0000
  {
    From16(s) * 0x1_0000 + From16(s[2..])
  }

  /** The reserved high bit is masked off. */
  function StreamIdFrom(v: nat): StreamId {
    v % 0x8000_0000
  }

  lemma Be24RoundTrip(v: nat, rest: seq<Octet>)
    requires v <= MAX_ALLOWED_FRAME_SIZE
    ensures From24(Be24(v) + rest) == v
  {
    var s := Be24(v) + rest;
    assert s[0] == v / 0x1_0000 && s[1..][0] == (v % 0x1_0000) / 256 && s[1..][1] == (v % 0x1_0000) % 256;
  }

  lemma Be32RoundTrip(v: nat, rest: seq<Octet>)
    requires v < 0x1_0000_0000
    ensures From32(Be32(v) + rest) == v
  {
    var s := Be32(v) + rest;
    assert s[0] == (v / 0x1_0000) / 256 && s[1] == (v / 0x1_0000) % 256;
    assert s[2..][0] == (v % 0x1_0000) / 256 && s[2..][1] == (v % 0x1_0000) % 256;
  }

  // -------------------------------------------------------------------------
  // Parsing.
  // -------------------------------------------------------------------------

  function ParseHeader(b: seq<Octet>): FrameHeader
    requires |b| >= FRAME_HEADER_LEN
  {
    FrameHeader(From24(b), TypeFrom(b[3]), b[4], StreamIdFrom(From32(b[5..])))
  }

  function StripPadding(kind: FrameType, flags: Octet, payload: seq<Octet>): Result<seq<Octet>, FrameError> {
    if !Flag(flags, PADDED) then Ok(payload)
    else if payload == [] then Err(BadLength(kind, 0))
    else if payload[0] >= |payload| then Err(PaddingOverflow(kind))
    else Ok(payload[1..|payload| - payload[0]])
  }

  function DependsOn(field: seq<Octet>): StreamId
    requires |field| >= 4
  {
    StreamIdFrom(From32(field))
  }

  function ValidatePriority(h: FrameHeader, payload: seq<Octet>): Result<Decoded, FrameError> {
    if h.stream == CONNECTION then Err(BadStreamId(UnknownType(2)))
    else if |payload| != PRIORITY_FIELD_LEN then Err(BadLength(UnknownType(2), |payload|))
    else if DependsOn(payload) == h.stream then Err(SelfDependency(UnknownType(2)))
    else Ok(Ignored(UnknownType(2), h.stream))
  }

  function DataFromParts(h: FrameHeader, payload: seq<Octet>): Result<Frame, FrameError> {
    if h.stream == CONNECTION then Err(BadStreamId(DataType))
    else
      match StripPadding(DataType, h.flags, payload)
      case Err(e) => Err(e)
      case Ok(data) => Ok(Data(h.stream, data, Flag(h.flags, END_STREAM)))
  }

  /** The deprecated priority fields are skipped, once checked. */
  function StripPriority(h: FrameHeader, block: seq<Octet>): Result<seq<Octet>, FrameError> {
    if !Flag(h.flags, PRIORITY) then Ok(block)
    else if |block| < PRIORITY_FIELD_LEN then Err(BadLength(HeadersType, |block|))
    else if DependsOn(block) == h.stream then Err(SelfDependency(HeadersType))
    else Ok(block[PRIORITY_FIELD_LEN..])
  }

  function HeadersFromParts(h: FrameHeader, payload: seq<Octet>): Result<Frame, FrameError> {
    if h.stream == CONNECTION then Err(BadStreamId(HeadersType))
    else
      match StripPadding(HeadersType, h.flags, payload)
      case Err(e) => Err(e)
      case Ok(padless) =>
        match StripPriority(h, padless)
        case Err(e) => Err(e)
        case Ok(block) => Ok(Headers(h.stream, block, Flag(h.flags, END_STREAM), Flag(h.flags, END_HEADERS)))
  }

  function ParamsFrom(payload: seq<Octet>): seq<Param>
    requires |payload| % 6 == 0
  {
    if payload == [] then []
    else [Param(From16(payload), From32(payload[2..]))] + ParamsFrom(payload[6..])
  }

  function SettingsFromParts(h: FrameHeader, payload: seq<Octet>): Result<Frame, FrameError> {
    if h.stream != CONNECTION then Err(BadStreamId(SettingsType))
    else if Flag(h.flags, ACK) then
      if payload != [] then Err(BadLength(SettingsType, |payload|)) else Ok(Settings(true, []))
    else if |payload| % 6 != 0 then Err(BadLength(SettingsType, |payload|))
    else Ok(Settings(false, ParamsFrom(payload)))
  }

  function RstStreamFromParts(h: FrameHeader, payload: seq<Octet>): Result<Frame, FrameError> {
    if h.stream == CONNECTION then Err(BadStreamId(RstStreamType))
    else if |payload| != 4 then Err(BadLength(RstStreamType, |payload|))
    else Ok(RstStream(h.stream, ErrorFrom(From32(payload))))
  }

  function PingFromParts(h: FrameHeader, payload: seq<Octet>): Result<Frame, FrameError> {
    if h.stream != CONNECTION then Err(BadStreamId(PingType))
    else if |payload| != 8 then Err(BadLength(PingType, |payload|))
    else Ok(Ping(payload, Flag(h.flags, ACK)))
  }

  function GoAwayFromParts(h: FrameHeader, payload: seq<Octet>): Result<Frame, FrameError> {
    if h.stream != CONNECTION then Err(BadStreamId(GoAwayType))
    else if |payload| < 8 then Err(BadLength(GoAwayType, |payload|))
    else Ok(GoAway(StreamIdFrom(From32(payload)), ErrorFrom(From32(payload[4..])), payload[8..]))
  }

  function WindowUpdateFromParts(h: FrameHeader, payload: seq<Octet>): Result<Frame, FrameError> {
    if |payload| != 4 then Err(BadLength(WindowUpdateType, |payload|))
    else Ok(WindowUpdate(h.stream, From32(payload) % 0x8000_0000))
  }

  function ContinuationFromParts(h: FrameHeader, payload: seq<Octet>): Result<Frame, FrameError> {
    if h.stream == CONNECTION then Err(BadStreamId(ContinuationType))
    else Ok(Continuation(h.stream, payload, Flag(h.flags, END_HEADERS)))
  }

  function Framed(r: Result<Frame, FrameError>): Result<Decoded, FrameError> {
    match r
    case Err(e) => Err(e)
    case Ok(f) => Ok(Typed(f))
  }

  function FromParts(h: FrameHeader, payload: seq<Octet>): Result<Decoded, FrameError> {
    match h.kind
    case DataType => Framed(DataFromParts(h, payload))
    case HeadersType => Framed(HeadersFromParts(h, payload))
    case RstStreamType => Framed(RstStreamFromParts(h, payload))
    case SettingsType => Framed(SettingsFromParts(h, payload))
    case PingType => Framed(PingFromParts(h, payload))
    case GoAwayType => Framed(GoAwayFromParts(h, payload))
    case WindowUpdateType => Framed(WindowUpdateFromParts(h, payload))
    case ContinuationType => Framed(ContinuationFromParts(h, payload))
    case UnknownType(code) =>
      if code == 5 then Err(UnexpectedPushPromise)
      else if code == 2 then ValidatePriority(h, payload)
      else Ok(Ignored(UnknownType(code), h.stream))
  }

  /** One attempt on the front of the buffer: not yet a whole frame, a frame and
      what follows it, or a violation. */
  datatype Attempt =
    | NeedMore
    | Got(decoded: Decoded, rest: seq<Octet>)
    | Bad(error: FrameError)

  function DecodeAny(max: nat, buf: seq<Octet>): Attempt {
    if |buf| < FRAME_HEADER_LEN then NeedMore
    else
      var h := ParseHeader(buf);
      if h.length > max then Bad(Oversized(h.length, max))
      else
        var total := FRAME_HEADER_LEN + h.length;
        if |buf| < total then NeedMore
        else
          match FromParts(h, buf[FRAME_HEADER_LEN..total])
          case Err(e) => Bad(e)
          case Ok(d) => Got(d, buf[total..])
  }

  // -------------------------------------------------------------------------
  // Printing.
  // -------------------------------------------------------------------------

  function WriteHeader(h: FrameHeader): (s: seq<Octet>)
    requires h.length <= MAX_ALLOWED_FRAME_SIZE
    ensures |s| == FRAME_HEADER_LEN
  {
    Be24(h.length) + [TypeCode(h.kind), h.flags] + Be32(h.stream)
  }

  /** Values the wire fields can hold. */
  predicate Printable(f: Frame) {
    match f
    case Settings(_, params) => forall p :: p in params ==> p.id < 0x1_0000 && p.value < 0x1_0000_0000
    case WindowUpdate(_, increment) => increment < 0x1_0000_0000
    case _ => true
  }

  function ParamOctets(params: seq<Param>): (s: seq<Octet>)
    requires forall p :: p in params ==> p.id < 0x1_0000 && p.value < 0x1_0000_0000
    ensures |s| == 6 * |params|
  {
    if params == [] then []
    else Be16(params[0].id) + Be32(params[0].value) + ParamOctets(params[1..])
  }

  function KindOf(f: Frame): FrameType {
    match f
    case Data(_, _, _) => DataType
    case Headers(_, _, _, _) => HeadersType
    case Settings(_, _) => SettingsType
    case WindowUpdate(_, _) => WindowUpdateType
    case RstStream(_, _) => RstStreamType
    case Ping(_, _) => PingType
    case GoAway(_, _, _) => GoAwayType
    case Continuation(_, _, _) => ContinuationType
  }

  function StreamOf(f: Frame): StreamId {
    if f.Settings? || f.Ping? || f.GoAway? then CONNECTION else f.stream
  }

  function FlagsOf(f: Frame): Octet {
    match f
    case Data(_, _, endStream) => FlagIf(endStream, END_STREAM)
    case Headers(_, _, endStream, endHeaders) => FlagIf(endStream, END_STREAM) + FlagIf(endHeaders, END_HEADERS)
    case Settings(ack, _) => FlagIf(ack, ACK)
    case Ping(_, ack) => FlagIf(ack, ACK)
    case Continuation(_, _, endHeaders) => FlagIf(endHeaders, END_HEADERS)
    case _ => 0
  }

  function PayloadOf(f: Frame): seq<Octet>
    requires Printable(f)
  {
    match f
    case Data(_, data, _) => data
    case Headers(_, block, _, _) => block
    case Settings(_, params) => ParamOctets(params)
    case WindowUpdate(_, increment) => Be32(increment % 0x8000_0000)
    case RstStream(_, error) => Be32(ErrorNumber(error))
    case Ping(payload, _) => payload
    case GoAway(last, error, debug) => Be32(last) + Be32(ErrorNumber(error)) + debug
    case Continuation(_, block, _) => block
  }

  /** A frame short enough for a peer that takes `max` octets of payload. */
  predicate FitsIn(f: Frame, max: nat) {
    Printable(f) ==> |PayloadOf(f)| <= max
  }

  function Write(f: Frame): Result<seq<Octet>, FrameError>
    requires Printable(f)
  {
    var payload := PayloadOf(f);
    if |payload| > MAX_ALLOWED_FRAME_SIZE then
      Err(Oversized(Min(|payload|, 0xffff_ffff), MAX_ALLOWED_FRAME_SIZE))
    else
      Ok(WriteHeader(FrameHeader(|payload|, KindOf(f), FlagsOf(f), StreamOf(f))) + payload)
  }

  /** A frame's octets on the wire; none for one that cannot be framed. */
  function Printed(f: Frame): seq<Octet> {
    if Printable(f) && Write(f).Ok? then Write(f).value else []
  }

  /** The octets of frames in a row. */
  function PrintedAll(frames: seq<Frame>): seq<Octet>
    decreases |frames|
  {
    if frames == [] then [] else PrintedAll(frames[..|frames| - 1]) + Printed(frames[|frames| - 1])
  }

  /** The octets taken off an output and those still in it are the frames put there. */
  ghost predicate Prints(taken: seq<Octet>, out: seq<Octet>, written: seq<Frame>) {
    taken + out == PrintedAll(written)
  }

  /** Frames are only added, and all of them but HEADERS fit a limit of `max`; none
      other than DATA is longer than eight octets. */
  ghost predicate Lengthens(before: seq<Frame>, after: seq<Frame>, max: nat) {
    && before <= after
    && (8 <= max ==> forall i :: |before| <= i < |after| && !after[i].Headers? ==> FitsIn(after[i], max))
  }

  lemma LengthensThen(a: seq<Frame>, b: seq<Frame>, c: seq<Frame>, max: nat)
    requires Lengthens(a, b, max) && Lengthens(b, c, max)
    ensures Lengthens(a, c, max)
  {
    assert forall i :: |a| <= i < |b| ==> c[i] == b[i];
  }

  /** Nothing but what can be framed. */
  ghost predicate AllFramable(frames: seq<Frame>) {
    forall f :: f in frames ==> FitsIn(f, MAX_ALLOWED_FRAME_SIZE)
  }

  lemma PrintedSnoc(frames: seq<Frame>, f: Frame)
    ensures PrintedAll(frames + [f]) == PrintedAll(frames) + Printed(f)
  {
    assert (frames + [f])[..|frames|] == frames;
  }

  // -------------------------------------------------------------------------
  // Round trips.
  // -------------------------------------------------------------------------

  /** A frame the protocol lets an endpoint send: addressed to a stream where one
      is required, an acknowledgement carrying nothing, fields in range. */
  predicate WellFormed(f: Frame) {
    match f
    case Data(stream, _, _) => stream != CONNECTION
    case Headers(stream, _, _, _) => stream != CONNECTION
    case Settings(ack, params) =>
      (ack ==> params == []) && forall p :: p in params ==> p.id < 0x1_0000 && p.value < 0x1_0000_0000
    case WindowUpdate(_, increment) => increment < 0x8000_0000
    case RstStream(stream, _) => stream != CONNECTION
    case Ping(payload, _) => |payload| == 8
    case GoAway(_, _, _) => true
    case Continuation(stream, _, _) => stream != CONNECTION
  }

  lemma HeaderRoundTrip(h: FrameHeader, rest: seq<Octet>)
    requires h.length <= MAX_ALLOWED_FRAME_SIZE
    requires !h.kind.UnknownType?
    ensures ParseHeader(WriteHeader(h) + rest) == h
  {
    hide Be24, Be32, From24, From32;
    var s := WriteHeader(h) + rest;
    var mid := [TypeCode(h.kind), h.flags];
    assert s == Be24(h.length) + (mid + Be32(h.stream) + rest);
    assert s[3] == TypeCode(h.kind) && s[4] == h.flags;
    assert s[5..] == Be32(h.stream) + rest;
    Be24RoundTrip(h.length, mid + Be32(h.stream) + rest);
    Be32RoundTrip(h.stream, rest);
  }

  lemma {:induction false} ParamsRoundTrip(params: seq<Param>)
    requires forall p :: p in params ==> p.id < 0x1_0000 && p.value < 0x1_0000_0000
    ensures ParamsFrom(ParamOctets(params)) == params
  {
    if params != [] {
      hide Be32, From32;
      var p := params[0];
      var s := ParamOctets(params);
      assert p in params;
      assert s[2..] == Be32(p.value) + ParamOctets(params[1..]);
      assert s[6..] == ParamOctets(params[1..]);
      Be32RoundTrip(p.value, ParamOctets(params[1..]));
      ParamsRoundTrip(params[1..]);
    }
  }

  lemma GoAwayRoundTrip(f: Frame, h: FrameHeader)
    requires f.GoAway? && h.stream == CONNECTION
    ensures GoAwayFromParts(h, PayloadOf(f)) == Ok(f)
  {
    hide Be32, From32;
    var last, code := Be32(f.lastStream), Be32(ErrorNumber(f.error));
    var s := PayloadOf(f);
    assert s == last + (code + f.debug);
    assert s[4..] == code + f.debug && s[8..] == f.debug;
    Be32RoundTrip(f.lastStream, code + f.debug);
    Be32RoundTrip(ErrorNumber(f.error), f.debug);
  }

  lemma WordRoundTrip(v: nat)
    requires v < 0x1_0000_0000
    ensures From32(Be32(v)) == v
  {
    assert Be32(v) + [] == Be32(v);
    Be32RoundTrip(v, []);
  }

  /** A printed payload parses to its frame. */
  lemma PartsRoundTrip(f: Frame, len: nat)
    requires WellFormed(f)
    ensures FromParts(FrameHeader(len, KindOf(f), FlagsOf(f), StreamOf(f)), PayloadOf(f)) == Ok(Typed(f))
  {
    hide Be32, From32;
    var h := FrameHeader(len, KindOf(f), FlagsOf(f), StreamOf(f));
    match f
    case Data(_, _, _) =>
    case Headers(_, _, _, _) =>
    case Settings(_, params) => ParamsRoundTrip(params);
    case WindowUpdate(_, increment) => WordRoundTrip(increment);
    case RstStream(_, error) => WordRoundTrip(ErrorNumber(error));
    case Ping(_, _) =>
    case GoAway(_, _, _) => GoAwayRoundTrip(f, h);
    case Continuation(_, _, _) =>
  }

  /** Decoding a printed frame followed by anything returns that frame and exactly
      what followed it. */
  lemma FrameRoundTrip(f: Frame, max: nat, rest: seq<Octet>)
    requires WellFormed(f) && |PayloadOf(f)| <= max <= MAX_ALLOWED_FRAME_SIZE
    ensures Write(f).Ok? && DecodeAny(max, Write(f).value + rest) == Got(Typed(f), rest)
  {
    hide FromParts, PayloadOf, ParseHeader, WriteHeader;
    var payload := PayloadOf(f);
    var h := FrameHeader(|payload|, KindOf(f), FlagsOf(f), StreamOf(f));
    var head := WriteHeader(h);
    var buf := head + payload + rest;
    assert buf == head + (payload + rest);
    HeaderRoundTrip(h, payload + rest);
    PartsRoundTrip(f, |payload|);
    assert buf[FRAME_HEADER_LEN..FRAME_HEADER_LEN + |payload|] == payload;
    assert buf[FRAME_HEADER_LEN + |payload|..] == rest;
  }

  /** What decoding consumed, the parser does not need more of. */
  lemma HeaderStable(buf: seq<Octet>, more: seq<Octet>)
    requires |buf| >= FRAME_HEADER_LEN
    ensures ParseHeader(buf + more) == ParseHeader(buf)
  {
    var s := buf + more;
    assert s[1..][0] == buf[1..][0] && s[1..][1] == buf[1..][1];
    assert s[5..][0] == buf[5..][0] && s[5..][1] == buf[5..][1];
    assert s[5..][2..][0] == buf[5..][2..][0] && s[5..][2..][1] == buf[5..][2..][1];
  }

  /** A decision once made is not changed by octets that arrive later. */
  lemma DecodeStable(max: nat, buf: seq<Octet>, more: seq<Octet>)
    ensures match DecodeAny(max, buf)
            case NeedMore => true
            case Got(d, rest) => DecodeAny(max, buf + more) == Got(d, rest + more)
            case Bad(e) => DecodeAny(max, buf + more) == Bad(e)
  {
    hide FromParts, ParseHeader;
    if |buf| >= FRAME_HEADER_LEN {
      HeaderStable(buf, more);
      var total := FRAME_HEADER_LEN + ParseHeader(buf).length;
      if total <= |buf| {
        assert (buf + more)[FRAME_HEADER_LEN..total] == buf[FRAME_HEADER_LEN..total];
        assert (buf + more)[total..] == buf[total..] + more;
      }
    }
  }

  /** A frame cut short anywhere is not decided, and nothing is consumed. */
  lemma ProperPrefixNeedsMore(f: Frame, max: nat, k: nat)
    requires WellFormed(f) && |PayloadOf(f)| <= max <= MAX_ALLOWED_FRAME_SIZE
    requires Write(f).Ok? && k < |Write(f).value|
    ensures DecodeAny(max, Write(f).value[..k]) == NeedMore
  {
    hide FromParts, PayloadOf, ParseHeader, WriteHeader;
    var w := Write(f).value;
    var payload := PayloadOf(f);
    var h := FrameHeader(|payload|, KindOf(f), FlagsOf(f), StreamOf(f));
    if k >= FRAME_HEADER_LEN {
      HeaderRoundTrip(h, payload);
      assert w == w[..k] + w[k..];
      HeaderStable(w[..k], w[k..]);
    }
  }

  // -------------------------------------------------------------------------
  // One decode normalises.
  // -------------------------------------------------------------------------

  lemma {:induction false} ParamsInRange(payload: seq<Octet>)
    requires |payload| % 6 == 0
    ensures forall p :: p in ParamsFrom(payload) ==> p.id < 0x1_0000 && p.value < 0x1_0000_0000
    ensures 6 * |ParamsFrom(payload)| == |payload|
  {
    if payload != [] {
      hide From32, From16;
      ParamsInRange(payload[6..]);
    }
  }

  /** Whatever parses is well formed, and prints to no more than was read. */
  lemma ParsedIsWellFormed(h: FrameHeader, payload: seq<Octet>)
    requires FromParts(h, payload).Ok? && FromParts(h, payload).value.Typed?
    ensures var f := FromParts(h, payload).value.frame;
            WellFormed(f) && |PayloadOf(f)| <= |payload|
  {
    if h.kind == SettingsType && |payload| % 6 == 0 {
      ParamsInRange(payload);
    }
    hide ParamsFrom, From32, Be32;
  }

  /** Decoding, printing and decoding again is decoding once: padding, priority
      fields, reserved bits and unknown codes are gone after the first pass. */
  lemma DecodeNormalises(max: nat, buf: seq<Octet>, rest: seq<Octet>)
    requires max <= MAX_ALLOWED_FRAME_SIZE
    requires DecodeAny(max, buf).Got? && DecodeAny(max, buf).decoded.Typed?
    ensures var f := DecodeAny(max, buf).decoded.frame;
            Printable(f) && Write(f).Ok? && DecodeAny(max, Write(f).value + rest) == Got(Typed(f), rest)
  {
    hide FromParts, ParseHeader, PayloadOf;
    var h := ParseHeader(buf);
    var payload := buf[FRAME_HEADER_LEN..FRAME_HEADER_LEN + h.length];
    ParsedIsWellFormed(h, payload);
    FrameRoundTrip(FromParts(h, payload).value.frame, max, rest);
  }

  // -------------------------------------------------------------------------
  // The codec as it runs.
  // -------------------------------------------------------------------------

  /** A reassembly buffer: octets are appended at the back as they are read and
      taken off the front a frame at a time. */
  class ReadBuffer {
    var octets: seq<Octet>

    constructor ()
      ensures octets == []
    {
      octets := [];
    }

    method Append(chunk: seq<Octet>)
      modifies this
      ensures octets == old(octets) + chunk
    {
      octets := octets + chunk;
    }
  }

  class FrameCodec {
    var maxFrameSize: nat

    constructor (max: nat)
      ensures maxFrameSize == max
    {
      maxFrameSize := max;
    }

    /** Take one frame off the front, or leave the buffer alone. */
    method TakeFrame(buf: ReadBuffer) returns (r: Result<Option<Decoded>, FrameError>)
      modifies buf
      ensures match DecodeAny(maxFrameSize, old(buf.octets))
              case NeedMore => r == Ok(None) && buf.octets == old(buf.octets)
              case Got(d, rest) => r == Ok(Some(d)) && buf.octets == rest
              case Bad(e) => r == Err(e)
    {
      if |buf.octets| < FRAME_HEADER_LEN {
        return Ok(None);
      }
      var header := ParseHeader(buf.octets);
      if header.length > maxFrameSize {
        return Err(Oversized(header.length, maxFrameSize));
      }
      var total := FRAME_HEADER_LEN + header.length;
      if |buf.octets| < total {
        return Ok(None);
      }
      var payload := buf.octets[FRAME_HEADER_LEN..total];
      buf.octets := buf.octets[total..];
      var parsed := FromParts(header, payload);
      match parsed {
        case Err(e) => r := Err(e);
        case Ok(d) => r := Ok(Some(d));
      }
    }

    /** As above, skipping the frames that are not modelled. */
    method Decode(buf: ReadBuffer) returns (r: Result<Option<Frame>, FrameError>)
      modifies buf
      ensures match Next(maxFrameSize, old(buf.octets))
              case NeedMore => r == Ok(None)
              case Got(Typed(f), rest) => r == Ok(Some(f)) && buf.octets == rest
              case Got(Ignored(_, _), _) => false
              case Bad(e) => r == Err(e)
    {
      hide DecodeAny;
      while true
        invariant Next(maxFrameSize, buf.octets) == Next(maxFrameSize, old(buf.octets))
        decreases |buf.octets|
      {
        GotShrinks(maxFrameSize, buf.octets);
        var one := TakeFrame(buf);
        match one {
          case Err(e) => return Err(e);
          case Ok(None) => return Ok(None);
          case Ok(Some(Typed(f))) => return Ok(Some(f));
          case Ok(Some(Ignored(_, _))) =>
        }
      }
    }
  }

  lemma GotShrinks(max: nat, buf: seq<Octet>)
    ensures DecodeAny(max, buf).Got? ==> |DecodeAny(max, buf).rest| < |buf|
  {
  }

  /** The first modelled frame, once every ignorable one before it is consumed. */
  function Next(max: nat, buf: seq<Octet>): Attempt
    decreases |buf|
  {
    match DecodeAny(max, buf)
    case Got(Ignored(_, _), rest) =>
      GotShrinks(max, buf);
      Next(max, rest)
    case other => other
  }
}
