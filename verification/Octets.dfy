/** Octets, the bits inside them, and the two result types every layer shares.

    Bits are written most significant first, which is the order in which both
    HPACK and the frame header put them on the wire. */
module Octets {

  type Octet = x: nat | x < 256

  datatype Option<+T> = None | Some(value: T)

  datatype Result<+T, +E> = Ok(value: T) | Err(error: E) {

    predicate IsFailure() {
      Err?
    }

    function PropagateFailure<U>(): Result<U, E>
      requires IsFailure()
    {
      Err(error)
    }

    function Extract(): T
      requires !IsFailure()
    {
      value
    }
  }

  function Pow2(n: nat): (p: nat)
    ensures p >= 1
  {
    if n == 0 then 1 else 2 * Pow2(n - 1)
  }

  function Min(a: int, b: int): int {
    if a <= b then a else b
  }

  function Max(a: int, b: int): int {
    if a <= b then b else a
  }

  lemma {:induction false} Pow2Add(m: nat, n: nat)
    ensures Pow2(m + n) == Pow2(m) * Pow2(n)
  {
    if m > 0 {
      Pow2Add(m - 1, n);
      calc {
        Pow2(m + n);
        2 * Pow2(m - 1 + n);
        2 * (Pow2(m - 1) * Pow2(n));
        (2 * Pow2(m - 1)) * Pow2(n);
      }
    }
  }

  /** The `n` low bits of `v`. */
  function BitsOf(v: nat, n: nat): (bs: seq<bool>)
    ensures |bs| == n
  {
    if n == 0 then [] else BitsOf(v / 2, n - 1) + [v % 2 == 1]
  }

  /** The number a run of bits spells. */
  function Value(bs: seq<bool>): nat {
    if bs == [] then 0
    else 2 * Value(bs[..|bs| - 1]) + if bs[|bs| - 1] then 1 else 0
  }

  lemma {:induction false} ValueBound(bs: seq<bool>)
    ensures Value(bs) < Pow2(|bs|)
  {
    if bs != [] {
      ValueBound(bs[..|bs| - 1]);
    }
  }

  lemma {:induction false} ValueOfBits(v: nat, n: nat)
    ensures Value(BitsOf(v, n)) == v % Pow2(n)
  {
    if n > 0 {
      var bs := BitsOf(v, n);
      assert bs[..n - 1] == BitsOf(v / 2, n - 1);
      ValueOfBits(v / 2, n - 1);
      HalveModulo(v, Pow2(n - 1));
    }
  }

  lemma HalveModulo(v: nat, p: nat)
    requires p >= 1
    ensures 2 * ((v / 2) % p) + v % 2 == v % (2 * p)
  {
    var q, r := (v / 2) / p, (v / 2) % p;
    assert v == (2 * p) * q + (2 * r + v % 2) by {
      assert v / 2 == p * q + r;
      assert 2 * (p * q) == (2 * p) * q;
    }
    DivModUnique(v, 2 * p, q, 2 * r + v % 2);
  }

  lemma ScaleBound(d: int, k: int)
    requires d > 0
    ensures k >= 1 ==> d * k >= d
    ensures k <= -1 ==> d * k <= -d
  {
    if k >= 1 {
      assert d * k == d * (k - 1) + d;
    } else if k <= -1 {
      assert d * k == d * (k + 1) - d;
    }
  }

  /** Quotient and remainder are determined by the equation they satisfy. */
  lemma DivModUnique(v: int, d: int, q: int, r: int)
    requires d > 0 && 0 <= r < d && v == d * q + r
    ensures v / d == q && v % d == r
  {
    var k := v / d - q;
    ScaleBound(d, k);
    assert d * (v / d) + v % d == v;
    assert d * k == d * (v / d) - d * q;
  }

  lemma {:induction false} BitsOfValue(bs: seq<bool>)
    ensures BitsOf(Value(bs), |bs|) == bs
  {
    if bs != [] {
      BitsOfValue(bs[..|bs| - 1]);
      assert bs == bs[..|bs| - 1] + [bs[|bs| - 1]];
    }
  }

  lemma {:induction false} ValueInjective(a: seq<bool>, b: seq<bool>)
    requires |a| == |b| && Value(a) == Value(b)
    ensures a == b
  {
    BitsOfValue(a);
    BitsOfValue(b);
  }

  lemma ValueLast(bs: seq<bool>)
    requires bs != []
    ensures Value(bs) == 2 * Value(bs[..|bs| - 1]) + (if bs[|bs| - 1] then 1 else 0)
    ensures Pow2(|bs|) == 2 * Pow2(|bs| - 1)
  {
  }

  lemma Shifted(x: nat, p: nat, v: nat, bit: nat)
    ensures 2 * (x * p + v) + bit == x * (2 * p) + (2 * v + bit)
  {
  }

  lemma {:induction false} ValueConcat(a: seq<bool>, b: seq<bool>)
    ensures Value(a + b) == Value(a) * Pow2(|b|) + Value(b)
  {
    if b == [] {
      assert a + b == a;
    } else {
      hide Value, Pow2;
      var c := b[..|b| - 1];
      assert (a + b)[..|a + b| - 1] == a + c;
      ValueConcat(a, c);
      ValueLast(b);
      ValueLast(a + b);
      Shifted(Value(a), Pow2(|c|), Value(c), if b[|b| - 1] then 1 else 0);
    }
  }

  lemma {:induction false} BitAt(v: nat, n: nat, i: nat)
    requires i < n
    ensures BitsOf(v, n)[i] == ((v / Pow2(n - 1 - i)) % 2 == 1)
  {
    if i < n - 1 {
      BitAt(v / 2, n - 1, i);
      DivTwice(v, Pow2(n - 2 - i));
    }
  }

  lemma DivTwice(v: nat, p: nat)
    requires p >= 1
    ensures (v / 2) / p == v / (2 * p)
  {
    HalveModulo(v, p);
    var q, r := (v / 2) / p, (v / 2) % p;
    assert v == (2 * p) * q + (2 * r + v % 2) by {
      assert v / 2 == p * q + r;
      assert 2 * (p * q) == (2 * p) * q;
    }
    DivModUnique(v, 2 * p, q, 2 * r + v % 2);
  }

  /** The bits of a run of octets, in wire order. */
  function OctetBits(s: seq<Octet>): (bs: seq<bool>)
    ensures |bs| == 8 * |s|
  {
    if s == [] then [] else BitsOf(s[0], 8) + OctetBits(s[1..])
  }

  lemma {:induction false} OctetBitsConcat(a: seq<Octet>, b: seq<Octet>)
    ensures OctetBits(a + b) == OctetBits(a) + OctetBits(b)
  {
    if a == [] {
      assert a + b == b;
    } else {
      OctetBitsConcat(a[1..], b);
      assert (a + b)[1..] == a[1..] + b;
    }
  }

  lemma OctetOfBits(o: Octet)
    ensures Value(BitsOf(o, 8)) == o
  {
    assert Pow2(8) == 256;
    hide Pow2, Value, BitsOf;
    ValueOfBits(o, 8);
  }

  lemma {:induction false} OctetBitsInjective(a: seq<Octet>, b: seq<Octet>)
    requires OctetBits(a) == OctetBits(b)
    ensures a == b
  {
    if a != [] {
      var x, y := OctetBits(a), OctetBits(b);
      assert x[..8] == BitsOf(a[0], 8) && y[..8] == BitsOf(b[0], 8);
      assert x[8..] == OctetBits(a[1..]) && y[8..] == OctetBits(b[1..]);
      OctetOfBits(a[0]);
      OctetOfBits(b[0]);
      OctetBitsInjective(a[1..], b[1..]);
    }
  }

  /** Appending `n` low bits to a number appends them to its bits. */
  lemma {:induction false} BitsJoin(v: nat, m: nat, c: nat, n: nat)
    requires c < Pow2(n)
    ensures BitsOf(v * Pow2(n) + c, m + n) == BitsOf(v, m) + BitsOf(c, n)
  {
    if n == 0 {
      assert BitsOf(v, m) + [] == BitsOf(v, m);
    } else {
      var p := Pow2(n - 1);
      assert v * Pow2(n) == 2 * (v * p);
      var w := v * Pow2(n) + c;
      assert w / 2 == v * p + c / 2 && w % 2 == c % 2;
      BitsJoin(v, m, c / 2, n - 1);
    }
  }

  lemma OctetBitsSnoc(s: seq<Octet>, o: Octet)
    ensures OctetBits(s + [o]) == OctetBits(s) + BitsOf(o, 8)
  {
    hide BitsOf;
    OctetBitsConcat(s, [o]);
    assert [o][1..] == [];
    assert OctetBits([o]) == BitsOf(o, 8) + OctetBits([]);
  }
}
