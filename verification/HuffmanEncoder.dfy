/** The Huffman encoder as it runs: a 64-bit accumulator that is shifted left by
    each code and flushed an octet at a time. */
module HuffmanEncoder {
  import opened Octets
  import opened HuffmanCode
  import opened Huffman

  /** `v << n` in a 64-bit word. */
  function ShiftLeft64(v: nat, n: nat): nat {
    (v * Pow2(n)) % Pow2(64)
  }

  lemma ModProduct(v: nat, p: nat, k: nat)
    requires p >= 1 && k >= 1
    ensures p * k >= 1 && (v % (p * k)) % p == v % p
  {
    var d := p * k;
    ScaleBound(p, k);
    var q, r := v / d, v % d;
    var s, t := r / p, r % p;
    Regroup(v, p, k, d, q, r, s, t);
    DivModUnique(v, p, k * q + s, t);
  }

  lemma Regroup(v: int, p: int, k: int, d: int, q: int, r: int, s: int, t: int)
    requires v == d * q + r && d == p * k && r == p * s + t
    ensures v == p * (k * q + s) + t
  {
    assert d * q == p * (k * q);
  }

  lemma ModMod(v: nat, m: nat, n: nat)
    requires n <= m
    ensures (v % Pow2(m)) % Pow2(n) == v % Pow2(n)
  {
    Pow2Add(n, m - n);
    hide Pow2;
    ModProduct(v, Pow2(n), Pow2(m - n));
  }

  lemma LowBits(v: nat, m: nat, n: nat)
    requires n <= m
    ensures BitsOf(v % Pow2(m), n) == BitsOf(v, n)
  {
    hide BitsOf, Value, Pow2;
    ModMod(v, m, n);
    ValueOfBits(v, n);
    ValueOfBits(v % Pow2(m), n);
    ValueInjective(BitsOf(v % Pow2(m), n), BitsOf(v, n));
  }

  /** Scaling by `p` a number reduced modulo `k` scales the remainder. */
  lemma ModScale(v: nat, p: nat, k: nat)
    requires p >= 1 && k >= 1
    ensures k * p >= 1 && (v * p) % (k * p) == (v % k) * p
    ensures (v % k) * p + p <= k * p
  {
    var q, r := v / k, v % k;
    ScaleBound(p, k);
    ScaleBound(p, k - r);
    assert (k - r) * p == k * p - r * p;
    assert v * p == (k * q + r) * p == (k * p) * q + r * p;
    DivModUnique(v * p, k * p, q, r * p);
  }

  lemma ShiftIn(acc: nat, n: nat, c: nat, len: nat)
    requires c < Pow2(len) && n + len <= 64
    ensures BitsOf(ShiftLeft64(acc, len) + c, n + len) == BitsOf(acc, n) + BitsOf(c, len)
    ensures ShiftLeft64(acc, len) + c < Pow2(64)
  {
    hide BitsOf, Pow2, ShiftLeft64;
    ShiftedValue(acc, len);
    BitsJoin(acc % Pow2(64 - len), n, c, len);
    LowBits(acc, 64 - len, n);
  }

  /** Shifting drops the high bits and leaves room for `len` more. */
  lemma ShiftedValue(acc: nat, len: nat)
    requires len <= 64
    ensures ShiftLeft64(acc, len) == (acc % Pow2(64 - len)) * Pow2(len)
    ensures ShiftLeft64(acc, len) + Pow2(len) <= Pow2(64)
  {
    hide Pow2;
    Pow2Add(64 - len, len);
    ModScale(acc, Pow2(len), Pow2(64 - len));
  }

  lemma FlushOctet(acc: nat, n: nat)
    ensures BitsOf(acc, n + 8) == BitsOf((acc / Pow2(n)) % 256, 8) + BitsOf(acc, n)
  {
    assert Pow2(8) == 256;
    hide BitsOf, Pow2;
    BitsJoin(acc / Pow2(n), 8, acc % Pow2(n), n);
    assert (acc / Pow2(n)) * Pow2(n) + acc % Pow2(n) == acc;
    LowBits(acc / Pow2(n), 8, 8);
    LowBits(acc, n, n);
  }

  /** Append the coded form of `src` to `out`. */
  method EncodeInto(src: seq<Octet>, out: seq<Octet>) returns (r: seq<Octet>)
    ensures r == out + Encode(src)
  {
    hide BitsOf, OctetBits, CodedBits, Pack, CodeOf, Pow2;
    var acc: nat, nbits: nat := 0, 0;
    var done: seq<Octet> := [];
    Empty();
    for i := 0 to |src|
      invariant nbits < 8
      invariant OctetBits(done) + BitsOf(acc, nbits) == CodedBits(src[..i])
    {
      var code := CodeOf(src[i]);
      CodeLength(src[i]);
      CodeFits(src[i]);
      ghost var before := CodedBits(src[..i]);
      ShiftIn(acc, nbits, code.bits, code.len);
      NextCode(src, i, done, BitsOf(acc, nbits));
      acc := ShiftLeft64(acc, code.len) + code.bits;
      nbits := nbits + code.len;
      while nbits >= 8
        invariant OctetBits(done) + BitsOf(acc, nbits) == CodedBits(src[..i + 1])
      {
        nbits := nbits - 8;
        var o: Octet := (acc / Pow2(nbits)) % 256;
        FlushOctet(acc, nbits);
        OctetBitsSnoc(done, o);
        Reassociate(OctetBits(done), BitsOf(o, 8), BitsOf(acc, nbits));
        done := done + [o];
      }
    }
    assert src[..|src|] == src;
    if nbits > 0 {
      var pad := 8 - nbits;
      var ones := Pow2(pad) - 1;
      var o: Octet := (ShiftLeft64(acc, pad) + ones) % 256;
      ghost var o' := FillOctet(acc, nbits);
      FinalOctet(BitsOf(acc, nbits), o, done, src);
      done := done + [o];
    } else {
      NothingLeft(acc, done, src);
    }
    EncodedBits(src, done);
    r := out + done;
  }

  lemma Empty()
    ensures OctetBits([]) + BitsOf(0, 0) == CodedBits([])
  {
  }

  lemma Reassociate(a: seq<bool>, b: seq<bool>, c: seq<bool>)
    ensures a + (b + c) == (a + b) + c
  {
  }

  lemma NextCode(src: seq<Octet>, i: nat, done: seq<Octet>, left: seq<bool>)
    requires i < |src|
    requires OctetBits(done) + left == CodedBits(src[..i])
    ensures OctetBits(done) + (left + CodeBits(src[i])) == CodedBits(src[..i + 1])
  {
    hide BitsOf, OctetBits, CodedBits, CodeOf, CodeBits;
    assert src[..i + 1] == src[..i] + [src[i]];
    CodedBitsSnoc(src[..i], src[i]);
    Reassociate(OctetBits(done), left, CodeBits(src[i]));
  }

  lemma OctetSize()
    ensures Pow2(8) == 256
  {
  }

  /** The last octet holds the bits left over and then ones. */
  lemma FillOctet(acc: nat, nbits: nat) returns (o: Octet)
    requires 0 < nbits < 8
    ensures o == (ShiftLeft64(acc, 8 - nbits) + (Pow2(8 - nbits) - 1)) % 256
    ensures BitsOf(o, 8) == BitsOf(acc, nbits) + Ones(8 - nbits)
  {
    hide BitsOf, Pow2, ShiftLeft64, Ones;
    OctetSize();
    var pad := 8 - nbits;
    var v := ShiftLeft64(acc, pad) + (Pow2(pad) - 1);
    ShiftIn(acc, nbits, Pow2(pad) - 1, pad);
    AllOnes(pad);
    LowBits(v, 8, 8);
    o := v % 256;
  }

  lemma FinalOctet(left: seq<bool>, o: Octet, done: seq<Octet>, src: seq<Octet>)
    requires 0 < |left| < 8
    requires OctetBits(done) + left == CodedBits(src)
    requires BitsOf(o, 8) == left + Ones(8 - |left|)
    ensures OctetBits(done + [o]) == CodedBits(src) + Ones(PadLength(|CodedBits(src)|))
  {
    hide BitsOf, OctetBits, CodedBits, CodeOf, CodeBits;
    OctetBitsSnoc(done, o);
    Reassociate(OctetBits(done), left, Ones(8 - |left|));
    assert |CodedBits(src)| == 8 * |done| + |left|;
  }

  lemma NothingLeft(acc: nat, done: seq<Octet>, src: seq<Octet>)
    requires OctetBits(done) + BitsOf(acc, 0) == CodedBits(src)
    ensures OctetBits(done) == CodedBits(src) + Ones(PadLength(|CodedBits(src)|))
  {
    hide CodedBits, OctetBits, CodeBits, CodeOf;
    assert OctetBits(done) + BitsOf(acc, 0) == OctetBits(done);
    assert |CodedBits(src)| == 8 * |done|;
    assert CodedBits(src) + Ones(0) == CodedBits(src);
  }
}
