/** Integers and string literals (RFC 7541 sections 5.1 and 5.2).

    Parsers are functions from the octets still unread to a value and the octets
    left over; the methods that move a cursor over the block are proved against
    them. */
module HpackPrimitives {
  import opened Octets
  import Huffman
  import HuffmanEncoder
  import HuffmanDecoder

  const U32_MAX: nat := 0xffff_ffff

  /** Why a block cannot be decoded. Every one is a compression error. */
  datatype Fault =
    | Truncated
    | IntegerOverflow
    | IntegerTooLong
    | StringPastEnd
    | BadHuffman(why: Huffman.HuffmanError)
    | IndexZero
    | IndexPastEnd
    | LateSizeUpdate
    | SizeUpdateTooLarge

  /** A parsed value and what follows it. */
  datatype Parsed<+T> = Parsed(value: T, rest: seq<Octet>)

  type Parse<+T> = Result<Parsed<T>, Fault>

  // -------------------------------------------------------------------------
  // Integers.
  // -------------------------------------------------------------------------

  /** The value an all-ones prefix stands for. */
  function Mask(prefix: nat): nat
    requires 4 <= prefix <= 7
  {
    if prefix == 4 then 15 else if prefix == 5 then 31 else if prefix == 6 then 63 else 127
  }

  /** Continuation octets, seven bits each, least significant first. */
  function DecodeTail(value: nat, shift: nat, input: seq<Octet>): Parse<nat>
    decreases |input|
  {
    if input == [] then Err(Truncated)
    else
      var value' := value + (input[0] % 128) * Pow2(shift);
      if value' > U32_MAX then Err(IntegerOverflow)
      else if input[0] < 128 then Ok(Parsed(value', input[1..]))
      else if shift + 7 > 28 then Err(IntegerTooLong)
      else DecodeTail(value', shift + 7, input[1..])
  }

  /** An integer whose prefix is the low bits of `first`. */
  function DecodeInt(first: Octet, prefix: nat, input: seq<Octet>): Parse<nat>
    requires 4 <= prefix <= 7
  {
    var value := first % (Mask(prefix) + 1);
    if value < Mask(prefix) then Ok(Parsed(value, input)) else DecodeTail(value, 0, input)
  }

  function EncodeTail(rest: nat): (s: seq<Octet>)
    ensures |s| > 0
  {
    if rest < 128 then [rest] else [rest % 128 + 128] + EncodeTail(rest / 128)
  }

  /** `high` holds the representation's bits above the prefix. */
  function EncodeInt(value: nat, prefix: nat, high: Octet): (s: seq<Octet>)
    requires 4 <= prefix <= 7 && high + Mask(prefix) < 256
    ensures |s| > 0
  {
    if value < Mask(prefix) then [high + value]
    else [high + Mask(prefix)] + EncodeTail(value - Mask(prefix))
  }

  lemma SplitDigit(r: nat, p: nat)
    ensures (r % 128) * p + (r / 128) * (128 * p) == r * p
  {
    assert (r / 128) * (128 * p) == ((r / 128) * 128) * p;
    assert (r % 128) * p + ((r / 128) * 128) * p == (r % 128 + (r / 128) * 128) * p;
  }

  lemma Pow2Seven(shift: nat)
    ensures Pow2(shift + 7) == 128 * Pow2(shift)
  {
    Pow2Add(shift, 7);
    assert Pow2(7) == 128;
  }

  lemma TooBigForLastShift(r: nat)
    requires r >= 128
    ensures r * Pow2(28) > U32_MAX
  {
    Pow2Add(14, 14);
    assert Pow2(14) == 16384;
    assert Pow2(28) == 0x1000_0000;
  }

  /** Decoding an encoded tail adds the number it encodes, or overflows exactly
      when the sum does. */
  lemma {:induction false} TailRoundTrip(value: nat, shift: nat, r: nat, rest: seq<Octet>)
    requires shift in {0, 7, 14, 21, 28}
    ensures value + r * Pow2(shift) <= U32_MAX ==>
              DecodeTail(value, shift, EncodeTail(r) + rest) == Ok(Parsed(value + r * Pow2(shift), rest))
    ensures value + r * Pow2(shift) > U32_MAX ==> DecodeTail(value, shift, EncodeTail(r) + rest).Err?
    decreases r
  {
    hide Pow2;
    var input := EncodeTail(r) + rest;
    if r < 128 {
      assert input[1..] == rest;
      assert input[0] % 128 == r;
    } else {
      var low, high := (r % 128) * Pow2(shift), (r / 128) * (128 * Pow2(shift));
      SplitDigit(r, Pow2(shift));
      NonNegative(r / 128, 128 * Pow2(shift));
      assert input[1..] == EncodeTail(r / 128) + rest;
      assert input[0] == r % 128 + 128 && input[0] % 128 == r % 128;
      if shift == 28 {
        TooBigForLastShift(r);
      } else {
        Pow2Seven(shift);
        TailRoundTrip(value + low, shift + 7, r / 128, rest);
      }
    }
  }

  lemma NonNegative(a: nat, b: nat)
    ensures a * b >= 0
  {
  }

  /** An encoded integer decodes to itself exactly when it fits in 32 bits. */
  lemma IntRoundTrip(value: nat, prefix: nat, high: Octet, rest: seq<Octet>)
    requires 4 <= prefix <= 7 && high + Mask(prefix) < 256 && high % (Mask(prefix) + 1) == 0
    ensures var coded := EncodeInt(value, prefix, high);
            var back := DecodeInt(coded[0], prefix, coded[1..] + rest);
            && (value <= U32_MAX ==> back == Ok(Parsed(value, rest)))
            && (value > U32_MAX ==> back.Err?)
  {
    hide EncodeTail, DecodeTail, Mask;
    var coded := EncodeInt(value, prefix, high);
    LowBits(prefix, high, if value < Mask(prefix) then value else Mask(prefix));
    if value < Mask(prefix) {
      assert coded[1..] + rest == rest;
    } else {
      assert coded[1..] == EncodeTail(value - Mask(prefix));
      TailFromNothing(Mask(prefix), value - Mask(prefix), rest);
    }
  }

  lemma LowBits(prefix: nat, high: Octet, low: nat)
    requires 4 <= prefix <= 7 && high % (Mask(prefix) + 1) == 0 && low <= Mask(prefix)
    ensures (high + low) % (Mask(prefix) + 1) == low
  {
    match prefix
    case 4 =>
    case 5 =>
    case 6 =>
    case _ =>
  }

  lemma TailFromNothing(value: nat, r: nat, rest: seq<Octet>)
    ensures value + r <= U32_MAX ==> DecodeTail(value, 0, EncodeTail(r) + rest) == Ok(Parsed(value + r, rest))
    ensures value + r > U32_MAX ==> DecodeTail(value, 0, EncodeTail(r) + rest).Err?
  {
    hide EncodeTail, DecodeTail;
    assert Pow2(0) == 1;
    TailRoundTrip(value, 0, r, rest);
  }

  lemma {:induction false} TailInRange(value: nat, shift: nat, input: seq<Octet>)
    ensures DecodeTail(value, shift, input).Ok? ==>
              var p := DecodeTail(value, shift, input).value;
              p.value <= U32_MAX && |p.rest| < |input|
    decreases |input|
  {
    if input != [] {
      TailInRange(value + (input[0] % 128) * Pow2(shift), shift + 7, input[1..]);
    }
  }

  /** Whatever is decoded fits in 32 bits, and nothing already read is read again. */
  lemma IntInRange(first: Octet, prefix: nat, input: seq<Octet>)
    requires 4 <= prefix <= 7
    ensures DecodeInt(first, prefix, input).Ok? ==>
              var p := DecodeInt(first, prefix, input).value;
              p.value <= U32_MAX && |p.rest| <= |input|
  {
    TailInRange(first % (Mask(prefix) + 1), 0, input);
  }

  // -------------------------------------------------------------------------
  // Strings.
  // -------------------------------------------------------------------------

  ghost function DecodeString(input: seq<Octet>): Parse<seq<Octet>> {
    if input == [] then Err(Truncated)
    else
      match DecodeInt(input[0], 7, input[1..])
      case Err(e) => Err(e)
      case Ok(Parsed(len, rest)) =>
        if len > |rest| then Err(StringPastEnd)
        else if input[0] >= 128 then
          match Huffman.Decode(rest[..len]) {
            case Err(e) => Err(BadHuffman(e))
            case Ok(s) => Ok(Parsed(s, rest[len..]))
          }
        else Ok(Parsed(rest[..len], rest[len..]))
  }

  /** Huffman-code a string whenever that does not make it longer. */
  function EncodeString(s: seq<Octet>, huffman: bool): (w: seq<Octet>)
    ensures |w| > 0
  {
    if huffman && Huffman.EncodedLen(s) <= |s| then
      EncodeInt(Huffman.EncodedLen(s), 7, 128) + Huffman.Encode(s)
    else
      EncodeInt(|s|, 7, 0) + s
  }

  /** How many octets of string the literal carries. */
  function WireLength(s: seq<Octet>, huffman: bool): nat {
    if huffman && Huffman.EncodedLen(s) <= |s| then Huffman.EncodedLen(s) else |s|
  }

  /** A literal decodes to the string it encodes exactly when its length fits in
      32 bits. */
  lemma StringRoundTrip(s: seq<Octet>, huffman: bool, rest: seq<Octet>)
    ensures WireLength(s, huffman) <= U32_MAX ==>
              DecodeString(EncodeString(s, huffman) + rest) == Ok(Parsed(s, rest))
    ensures WireLength(s, huffman) > U32_MAX ==> DecodeString(EncodeString(s, huffman) + rest).Err?
  {
    hide Huffman.Decode, Huffman.Encode, Huffman.EncodedLen, DecodeInt, EncodeInt;
    var coded := huffman && Huffman.EncodedLen(s) <= |s|;
    var body := if coded then Huffman.Encode(s) else s;
    var high: Octet := if coded then 128 else 0;
    Huffman.EncodedLenExact(s);
    var len := EncodeInt(|body|, 7, high);
    var input := EncodeString(s, huffman) + rest;
    assert input == len + (body + rest);
    assert input[0] == len[0] && input[1..] == len[1..] + (body + rest);
    HighBit(|body|, high);
    IntRoundTrip(|body|, 7, high, body + rest);
    assert (body + rest)[..|body|] == body && (body + rest)[|body|..] == rest;
    Huffman.DecodeOfEncode(s);
  }

  lemma HighBit(value: nat, high: Octet)
    requires high == 0 || high == 128
    ensures EncodeInt(value, 7, high)[0] >= 128 <==> high == 128
  {
  }

  lemma StringShrinks(input: seq<Octet>)
    ensures DecodeString(input).Ok? ==> |DecodeString(input).value.rest| < |input|
  {
    hide Huffman.Decode, DecodeInt;
    if input != [] {
      IntInRange(input[0], 7, input[1..]);
    }
  }

  // -------------------------------------------------------------------------
  // The cursor, and the loops that move it.
  // -------------------------------------------------------------------------

  /** A read cursor over a header block. */
  class Cursor {
    const buf: seq<Octet>
    var pos: nat

    ghost predicate Valid()
      reads this
    {
      pos <= |buf|
    }

    /** What is still unread. */
    ghost function Rest(): seq<Octet>
      requires Valid()
      reads this
    {
      buf[pos..]
    }

    constructor (block: seq<Octet>)
      ensures Valid() && buf == block && Rest() == block
    {
      buf := block;
      pos := 0;
    }

    method IsEmpty() returns (empty: bool)
      requires Valid()
      ensures empty <==> Rest() == []
    {
      empty := pos >= |buf|;
    }

    method NextByte() returns (r: Result<Octet, Fault>)
      requires Valid()
      modifies this
      ensures Valid()
      ensures if old(Rest()) == [] then r == Err(Truncated) && Rest() == []
              else r == Ok(old(Rest())[0]) && Rest() == old(Rest())[1..]
    {
      if pos >= |buf| {
        return Err(Truncated);
      }
      r := Ok(buf[pos]);
      pos := pos + 1;
    }

    method Take(len: nat) returns (r: Result<seq<Octet>, Fault>)
      requires Valid()
      modifies this
      ensures Valid()
      ensures if len > |old(Rest())| then r == Err(StringPastEnd) && Rest() == old(Rest())
              else r == Ok(old(Rest())[..len]) && Rest() == old(Rest())[len..]
    {
      var end := pos + len;
      if end > |buf| {
        return Err(StringPastEnd);
      }
      assert buf[pos..][..len] == buf[pos..end] && buf[pos..][len..] == buf[end..];
      r := Ok(buf[pos..end]);
      pos := end;
    }
  }

  /** What a cursor-moving method delivers for the parse `p`. */
  ghost predicate Delivers<T>(r: Result<T, Fault>, rest: seq<Octet>, p: Parse<T>) {
    match p
    case Err(e) => r == Err(e)
    case Ok(v) => r == Ok(v.value) && rest == v.rest
  }

  /** What a continuation octet adds to the value. */
  function Digit(octet: Octet, shift: nat): nat {
    (octet % 128) * Pow2(shift)
  }

  /** One continuation octet. */
  lemma TailTurn(value: nat, shift: nat, input: seq<Octet>)
    ensures DecodeTail(value, shift, input) ==
            if input == [] then Err(Truncated)
            else
              var next := value + Digit(input[0], shift);
              if next > U32_MAX then Err(IntegerOverflow)
              else if input[0] < 128 then Ok(Parsed(next, input[1..]))
              else if shift + 7 > 28 then Err(IntegerTooLong)
              else DecodeTail(next, shift + 7, input[1..])
  {
  }

  method ReadInt(first: Octet, prefix: nat, cur: Cursor) returns (r: Result<nat, Fault>)
    requires 4 <= prefix <= 7 && cur.Valid()
    modifies cur
    ensures cur.Valid()
    ensures Delivers(r, cur.Rest(), DecodeInt(first, prefix, old(cur.Rest())))
    ensures r.Ok? ==> |cur.Rest()| <= old(|cur.Rest()|)
  {
    var mask := Mask(prefix);
    var value: nat := first % (mask + 1);
    if value < mask {
      return Ok(value);
    }
    hide Pow2, Mask, DecodeTail, Digit;
    var shift := 0;
    ghost var goal := DecodeTail(value, 0, cur.Rest());
    while true
      invariant cur.Valid() && 0 <= shift <= 28
      invariant DecodeTail(value, shift, cur.Rest()) == goal
      invariant |cur.Rest()| <= old(|cur.Rest()|)
      decreases |cur.Rest()|
    {
      TailTurn(value, shift, cur.Rest());
      var next := cur.NextByte();
      if next.Err? {
        return Err(next.error);
      }
      var octet := next.value;
      value := value + Digit(octet, shift);
      if value > U32_MAX {
        return Err(IntegerOverflow);
      }
      if octet < 128 {
        return Ok(value);
      }
      shift := shift + 7;
      if shift > 28 {
        return Err(IntegerTooLong);
      }
    }
  }

  method WriteInt(value: nat, prefix: nat, high: Octet, out: seq<Octet>) returns (r: seq<Octet>)
    requires 4 <= prefix <= 7 && high + Mask(prefix) < 256
    ensures r == out + EncodeInt(value, prefix, high)
  {
    var mask := Mask(prefix);
    if value < mask {
      return out + [high + value];
    }
    var digits: seq<Octet> := [];
    var rest: nat := value - mask;
    ghost var goal := EncodeTail(rest);
    hide EncodeTail;
    while rest >= 128
      invariant digits + EncodeTail(rest) == goal
      decreases rest
    {
      NextDigit(digits, rest);
      digits := digits + [rest % 128 + 128];
      rest := rest / 128;
    }
    LastDigit(rest);
    r := out + ([high + mask] + (digits + [rest]));
  }

  lemma NextDigit(digits: seq<Octet>, rest: nat)
    requires rest >= 128
    ensures (digits + [rest % 128 + 128]) + EncodeTail(rest / 128) == digits + EncodeTail(rest)
  {
  }

  lemma LastDigit(rest: nat)
    requires rest < 128
    ensures EncodeTail(rest) == [rest]
  {
  }

  method ReadString(cur: Cursor) returns (r: Result<seq<Octet>, Fault>)
    requires cur.Valid()
    modifies cur
    ensures cur.Valid()
    ensures Delivers(r, cur.Rest(), DecodeString(old(cur.Rest())))
    ensures r.Ok? ==> |cur.Rest()| < old(|cur.Rest()|)
  {
    hide Huffman.Decode, Huffman.Encode;
    var first := cur.NextByte();
    if first.Err? {
      return Err(first.error);
    }
    var len := ReadInt(first.value, 7, cur);
    if len.Err? {
      return Err(len.error);
    }
    var raw := cur.Take(len.value);
    if raw.Err? {
      return Err(raw.error);
    }
    if first.value >= 128 {
      var decoded := HuffmanDecoder.DecodeString(raw.value);
      match decoded {
        case Err(e) => r := Err(BadHuffman(e));
        case Ok(s) => r := Ok(s);
      }
    } else {
      r := Ok(raw.value);
    }
  }

  method WriteString(s: seq<Octet>, huffman: bool, out: seq<Octet>) returns (r: seq<Octet>)
    ensures r == out + EncodeString(s, huffman)
  {
    hide Huffman.Encode, Huffman.EncodedLen, EncodeInt;
    var codedLen := Huffman.EncodedLen(s);
    if huffman && codedLen <= |s| {
      r := WriteInt(codedLen, 7, 128, out);
      r := HuffmanEncoder.EncodeInto(s, r);
    } else {
      r := WriteInt(|s|, 7, 0, out);
      r := r + s;
    }
  }
}
