/** Huffman-coded strings (RFC 7541 section 5.2): what the encoder writes, what
    a bit-by-bit walk of the code tree reads, and the proof that the two are
    inverse on exactly the strings they share. */
module Huffman {
  import opened Octets
  import opened HuffmanCode

  datatype HuffmanError = EosInString | PaddingTooLong | PaddingNotOnes

  function Ones(n: nat): (bs: seq<bool>)
    ensures |bs| == n
  {
    seq(n, _ => true)
  }

  // -------------------------------------------------------------------------
  // Encoding.
  // -------------------------------------------------------------------------

  /** The codes of a string laid end to end. */
  function CodedBits(src: seq<Octet>): seq<bool> {
    if src == [] then [] else CodeBits(src[0]) + CodedBits(src[1..])
  }

  /** How far `n` bits fall short of a whole octet. */
  function PadLength(n: nat): (p: nat)
    ensures p < 8 && (n + p) % 8 == 0
  {
    (8 - n % 8) % 8
  }

  /** Whole octets out of a whole number of octets' worth of bits. */
  function Pack(bs: seq<bool>): (s: seq<Octet>)
    requires |bs| % 8 == 0
  {
    if bs == [] then [] else
    ValueBound(bs[..8]);
    assert Pow2(8) == 256;
    [Value(bs[..8])] + Pack(bs[8..])
  }

  /** The coded form: the codes, then the high bits of EOS up to an octet. */
  function Encode(src: seq<Octet>): seq<Octet> {
    var bits := CodedBits(src);
    Pack(bits + Ones(PadLength(|bits|)))
  }

  function CodedLength(src: seq<Octet>): nat {
    if src == [] then 0 else CodeOf(src[0]).len + CodedLength(src[1..])
  }

  function EncodedLen(src: seq<Octet>): nat {
    (CodedLength(src) + 7) / 8
  }

  lemma {:induction false} PackBits(bs: seq<bool>)
    requires |bs| % 8 == 0
    ensures OctetBits(Pack(bs)) == bs
  {
    if bs != [] {
      hide BitsOf, Value, Pow2;
      PackBits(bs[8..]);
      BitsOfValue(bs[..8]);
      assert bs == bs[..8] + bs[8..];
      assert Pack(bs)[1..] == Pack(bs[8..]);
    }
  }

  /** The coded form is characterised by its bits. */
  lemma EncodedBits(src: seq<Octet>, coded: seq<Octet>)
    ensures Encode(src) == coded <==>
            OctetBits(coded) == CodedBits(src) + Ones(PadLength(|CodedBits(src)|))
  {
    hide CodedBits, OctetBits, Pack;
    var bits := CodedBits(src);
    PackBits(bits + Ones(PadLength(|bits|)));
    if OctetBits(coded) == bits + Ones(PadLength(|bits|)) {
      OctetBitsInjective(coded, Encode(src));
    }
  }

  lemma {:induction false} CodedLengthIsBits(src: seq<Octet>)
    ensures CodedLength(src) == |CodedBits(src)|
  {
    if src != [] {
      CodedLengthIsBits(src[1..]);
    }
  }

  /** The length the encoder predicts is the length it writes. */
  lemma EncodedLenExact(src: seq<Octet>)
    ensures |Encode(src)| == EncodedLen(src)
  {
    hide CodedBits, OctetBits, Pack, CodedLength;
    CodedLengthIsBits(src);
    EncodedBits(src, Encode(src));
    assert |OctetBits(Encode(src))| == 8 * |Encode(src)|;
  }

  lemma {:induction false} CodedBitsSnoc(src: seq<Octet>, last: Octet)
    ensures CodedBits(src + [last]) == CodedBits(src) + CodeBits(last)
  {
    hide CodeBits, CodeOf;
    if src == [] {
      assert [last][1..] == [] && src + [last] == [last];
      assert CodeBits(last) + [] == [] + CodeBits(last);
    } else {
      CodedBitsSnoc(src[1..], last);
      assert (src + [last])[1..] == src[1..] + [last];
      assert CodeBits(src[0]) + (CodedBits(src[1..]) + CodeBits(last))
             == (CodeBits(src[0]) + CodedBits(src[1..])) + CodeBits(last);
    }
  }

  // -------------------------------------------------------------------------
  // Decoding, one bit at a time.
  // -------------------------------------------------------------------------

  /** The symbol whose code is exactly `path`, if there is one. */
  ghost function SymbolAt(path: seq<bool>): Option<Symbol> {
    if s: Symbol :| CodeBits(s) == path then Some(s) else None
  }

  lemma SymbolAtCode(s: Symbol)
    ensures SymbolAt(CodeBits(s)) == Some(s)
  {
    hide CodeOf;
    var t := SymbolAt(CodeBits(s)).value;
    if t != s {
      PrefixFree(t, s);
    }
  }

  /** Where a walk of the code tree ends: at EOS, or at a node, having read
      `out` on the way. */
  datatype Walked = Fault | Reached(out: seq<Octet>, path: seq<bool>)

  function Prepend(s: seq<Octet>, w: Walked): Walked {
    match w
    case Fault => Fault
    case Reached(out, path) => Reached(s + out, path)
  }

  ghost function Walk(path: seq<bool>, bits: seq<bool>): Walked
    decreases |bits|
  {
    if bits == [] then Reached([], path)
    else
      var next := path + [bits[0]];
      match SymbolAt(next)
      case None => Walk(next, bits[1..])
      case Some(s) => if s == EOS then Fault else Prepend([s], Walk([], bits[1..]))
  }

  /** What the bits of a coded string mean: the walk must avoid EOS and stop at
      most seven bits, all ones, past the last symbol. */
  ghost function Decode(src: seq<Octet>): Result<seq<Octet>, HuffmanError> {
    match Walk([], OctetBits(src))
    case Fault => Err(EosInString)
    case Reached(out, path) =>
      if |path| > 7 then Err(PaddingTooLong)
      else if path != Ones(|path|) then Err(PaddingNotOnes)
      else Ok(out)
  }

  lemma PrependTwice(a: seq<Octet>, b: seq<Octet>, w: Walked)
    ensures Prepend(a, Prepend(b, w)) == Prepend(a + b, w)
  {
    if w.Reached? {
      assert a + (b + w.out) == (a + b) + w.out;
    }
  }

  /** Reading a symbol's code from the root reads the symbol. */
  lemma ProperPrefixIsNoCode(s: Symbol, n: nat)
    requires n < |CodeBits(s)|
    ensures SymbolAt(CodeBits(s)[..n]) == None
  {
    hide CodeOf;
    var path := CodeBits(s)[..n];
    if SymbolAt(path).Some? {
      var t := SymbolAt(path).value;
      PrefixFree(t, s);
    }
  }

  lemma {:induction false} WalkCode(s: Octet, n: nat, tail: seq<bool>)
    requires n < |CodeBits(s)|
    ensures Walk(CodeBits(s)[..n], CodeBits(s)[n..] + tail) == Prepend([s], Walk([], tail))
    decreases |CodeBits(s)| - n
  {
    hide CodeOf;
    var code := CodeBits(s);
    var bits := code[n..] + tail;
    var next := code[..n] + [bits[0]];
    assert next == code[..n + 1];
    assert bits[1..] == code[n + 1..] + tail;
    if n + 1 == |code| {
      assert next == code;
      SymbolAtCode(s);
      assert bits[1..] == tail;
    } else {
      ProperPrefixIsNoCode(s, n + 1);
      WalkCode(s, n + 1, tail);
    }
  }

  lemma {:induction false} WalkCoded(src: seq<Octet>, tail: seq<bool>)
    ensures Walk([], CodedBits(src) + tail) == Prepend(src, Walk([], tail))
  {
    hide CodeOf, Walk;
    if src == [] {
      assert CodedBits(src) + tail == tail;
      PrependTwice([], [], Walk([], tail));
      PrependNothing(Walk([], tail));
    } else {
      var rest := CodedBits(src[1..]) + tail;
      CodeLength(src[0]);
      assert CodedBits(src) + tail == CodeBits(src[0]) + rest;
      assert CodeBits(src[0])[..0] == [];
      assert CodeBits(src[0])[0..] == CodeBits(src[0]);
      WalkCode(src[0], 0, rest);
      WalkCoded(src[1..], tail);
      PrependTwice([src[0]], src[1..], Walk([], tail));
      assert [src[0]] + src[1..] == src;
    }
  }

  lemma PrependNothing(w: Walked)
    ensures Prepend([], w) == w
  {
    if w.Reached? {
      assert [] + w.out == w.out;
    }
  }

  lemma {:induction false} AllOnes(n: nat)
    ensures BitsOf(Pow2(n) - 1, n) == Ones(n)
  {
    if n > 0 {
      AllOnes(n - 1);
      assert Ones(n) == Ones(n - 1) + [true];
    }
  }

  lemma EosIsOnes()
    ensures CodeBits(EOS) == Ones(30)
  {
    AllOnes(30);
    LineLength();
  }

  /** Fewer than thirty ones complete no code: they begin EOS. */
  lemma {:induction false} WalkOnes(k: nat, n: nat)
    requires k + n < 30
    ensures Walk(Ones(k), Ones(n)) == Reached([], Ones(k + n))
    decreases n
  {
    if n > 0 {
      hide CodeOf;
      assert Ones(k) + [Ones(n)[0]] == Ones(k + 1);
      assert Ones(n)[1..] == Ones(n - 1);
      EosIsOnes();
      assert CodeBits(EOS)[..k + 1] == Ones(k + 1);
      ProperPrefixIsNoCode(EOS, k + 1);
      WalkOnes(k + 1, n - 1);
    }
  }

  /** What a walk has read, and where it stands, spell the bits it consumed. */
  lemma {:induction false} WalkSpells(path: seq<bool>, bits: seq<bool>)
    requires Walk(path, bits).Reached?
    ensures path + bits == CodedBits(Walk(path, bits).out) + Walk(path, bits).path
    decreases |bits|
  {
    hide CodeOf;
    if bits == [] {
      assert path + bits == path;
    } else {
      var next := path + [bits[0]];
      assert path + bits == next + bits[1..];
      match SymbolAt(next)
      case None =>
        WalkSpells(next, bits[1..]);
      case Some(s) =>
        WalkSpells([], bits[1..]);
        var w := Walk([], bits[1..]);
        assert [] + bits[1..] == bits[1..];
        assert ([s] + w.out)[1..] == w.out;
        assert CodedBits([s] + w.out) == CodeBits(s) + CodedBits(w.out);
    }
  }

  // -------------------------------------------------------------------------
  // The two directions, and the bijection.
  // -------------------------------------------------------------------------

  lemma DecodeOfEncode(src: seq<Octet>)
    ensures Decode(Encode(src)) == Ok(src)
  {
    hide CodedBits, OctetBits, Pack, Walk, CodeOf;
    var pad := PadLength(|CodedBits(src)|);
    EncodedBits(src, Encode(src));
    WalkCoded(src, Ones(pad));
    assert Ones(0) == [];
    WalkOnes(0, pad);
    assert src + [] == src;
  }

  lemma EncodeOfDecode(coded: seq<Octet>)
    requires Decode(coded).Ok?
    ensures Encode(Decode(coded).value) == coded
  {
    hide CodedBits, OctetBits, Pack, Walk, CodeOf;
    var bits := OctetBits(coded);
    var w := Walk([], bits);
    WalkSpells([], bits);
    assert [] + bits == bits;
    assert |bits| == 8 * |coded|;
    assert |w.path| == PadLength(|CodedBits(w.out)|);
    EncodedBits(w.out, coded);
  }

  /** The decoder accepts exactly the encoder's output, and inverts it. */
  lemma Bijection(coded: seq<Octet>, src: seq<Octet>)
    ensures Decode(coded) == Ok(src) <==> Encode(src) == coded
  {
    hide Decode, Encode;
    DecodeOfEncode(src);
    if Decode(coded) == Ok(src) {
      EncodeOfDecode(coded);
    }
  }

  /** A walk can be cut anywhere. */
  lemma {:induction false} WalkConcat(path: seq<bool>, a: seq<bool>, b: seq<bool>)
    ensures Walk(path, a + b) ==
            match Walk(path, a) {
              case Fault => Fault
              case Reached(out, p) => Prepend(out, Walk(p, b))
            }
    decreases |a|
  {
    if a == [] {
      assert a + b == b;
      PrependNothing(Walk(path, b));
    } else {
      hide CodeOf;
      assert (a + b)[1..] == a[1..] + b;
      var next := path + [a[0]];
      match SymbolAt(next)
      case None =>
        WalkConcat(next, a[1..], b);
      case Some(s) =>
        WalkConcat([], a[1..], b);
        if s != EOS && Walk([], a[1..]).Reached? {
          var w := Walk([], a[1..]);
          PrependTwice([s], w.out, Walk(w.path, b));
        }
    }
  }
}
