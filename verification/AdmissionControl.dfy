/** The admission control loop: a total shared by all client connections, halved on
    distress, doubled below the last level known to be servable and raised by a
    sixteenth above it; how far it can go, and how fast it comes back. */
module AdmissionControl {
  import opened Octets

  const U64_MAX: nat := 0xffff_ffff_ffff_ffff
  const MIN_TOTAL: nat := 64
  const MIN_STEP: nat := 32
  const MIN_ADMIT: nat := 2

  type U64 = n: nat | n <= U64_MAX
  type U32 = n: nat | n <= 0xffff_ffff

  function Clamp(n: nat, low: nat, high: nat): nat
    requires low <= high
  {
    Max(low, Min(n, high))
  }

  /** The largest total there can be. */
  function CeilingTotal(ceiling: U32, conns: U64): U64 {
    Min(ceiling * conns, U64_MAX)
  }

  /** The bounds the clamps need to make sense. */
  predicate Clampable(ceiling: U32, conns: U64) {
    ceiling >= MIN_ADMIT && conns >= 1 && CeilingTotal(ceiling, conns) >= MIN_TOTAL
  }

  datatype Control = Control(total: U64, ssthresh: U64, lastShed: U64)

  function Half(current: U64): U64 {
    Max(current / 2, MIN_TOTAL)
  }

  function Step(current: U64): U64 {
    Max(current / 16, MIN_STEP)
  }

  /** The control after one sample, under a largest total of `top`. */
  function Sample(c: Control, top: U64, shedNow: U64, nearLimit: bool): Control
    requires top >= MIN_TOTAL
  {
    var current: U64 := Max(Clamp(c.total, MIN_TOTAL, top), 1);
    if shedNow > c.lastShed || nearLimit then Control(Half(current), Half(current), shedNow)
    else if current < c.ssthresh then Control(Min(Min(current * 2, U64_MAX), top), c.ssthresh, shedNow)
    else Control(Min(Min(current + Step(current), U64_MAX), top), c.ssthresh, shedNow)
  }

  /** What each connection is told of a total. */
  function Share(total: U64, conns: U64, ceiling: U32): U32
    requires conns >= 1 && ceiling >= MIN_ADMIT
  {
    Clamp(total / conns, MIN_ADMIT, ceiling)
  }

  class Shared {
    var admitTotal: U64
    var ssthresh: U64
    var lastShed: U64
    var admission: U32
    const ceiling: U32

    ghost function State(): Control
      reads this
    {
      Control(admitTotal, ssthresh, lastShed)
    }

    /** Opens at the ceiling and comes down on evidence. */
    constructor (ceiling: U32)
      ensures State() == Control(U64_MAX, U64_MAX, 0) && admission == ceiling && this.ceiling == ceiling
    {
      admitTotal, ssthresh, lastShed, admission := U64_MAX, U64_MAX, 0, ceiling;
      this.ceiling := ceiling;
    }

    method RecomputeAdmission(clients: U64, shedNow: U64, nearLimit: bool) returns (advertised: U32)
      requires Clampable(ceiling, Max(clients, 1))
      modifies this
      ensures var conns: U64 := Max(clients, 1);
              && State() == Sample(old(State()), CeilingTotal(ceiling, conns), shedNow, nearLimit)
              && advertised == Share(admitTotal, conns, ceiling)
      ensures admission == advertised
    {
      hide CeilingTotal;
      var conns: U64 := Max(clients, 1);
      var ceilingTotal := CeilingTotal(ceiling, conns);
      var shedBefore := lastShed;
      lastShed := shedNow;
      var distressed := shedNow > shedBefore || nearLimit;
      var current := Max(Clamp(admitTotal, MIN_TOTAL, ceilingTotal), 1);
      var nextTotal;
      if distressed {
        nextTotal := Max(current / 2, MIN_TOTAL);
        ssthresh := nextTotal;
      } else if current < ssthresh {
        nextTotal := Min(Min(current * 2, U64_MAX), ceilingTotal);
      } else {
        var step := Max(current / 16, MIN_STEP);
        nextTotal := Min(Min(current + step, U64_MAX), ceilingTotal);
      }
      admitTotal := nextTotal;
      advertised := Share(nextTotal, conns, ceiling);
      admission := advertised;
    }
  }

  // -------------------------------------------------------------------------
  // Bounds, whatever happens.
  // -------------------------------------------------------------------------

  /** After any sample the total is between the floor and the ceiling, and so is
      every share. */
  lemma SampleIsBounded(c: Control, ceiling: U32, conns: U64, shedNow: U64, nearLimit: bool)
    requires Clampable(ceiling, conns)
    ensures var next := Sample(c, CeilingTotal(ceiling, conns), shedNow, nearLimit);
            && MIN_TOTAL <= next.total <= CeilingTotal(ceiling, conns)
            && MIN_ADMIT <= Share(next.total, conns, ceiling) <= ceiling
            && (MIN_ADMIT * conns <= next.total ==> Share(next.total, conns, ceiling) * conns <= next.total)
  {
    hide CeilingTotal;
    var next := Sample(c, CeilingTotal(ceiling, conns), shedNow, nearLimit);
    ShareFits(next.total, conns, ceiling);
  }

  /** The shares together are within the total, unless the floor under each is what
      takes them past it. */
  lemma ShareFits(total: U64, conns: U64, ceiling: U32)
    requires conns >= 1 && ceiling >= MIN_ADMIT
    ensures MIN_ADMIT * conns <= total ==> Share(total, conns, ceiling) * conns <= total
  {
    if MIN_ADMIT * conns <= total {
      QuotientFits(total, conns);
      assert total / conns >= MIN_ADMIT;
      TimesMonotone(Share(total, conns, ceiling), total / conns, conns);
    }
  }

  lemma QuotientFits(total: nat, conns: nat)
    requires conns >= 1
    ensures (total / conns) * conns <= total
    ensures forall k: nat :: k * conns <= total ==> k <= total / conns
  {
    forall k: nat | k * conns <= total
      ensures k <= total / conns
    {
      if k >= total / conns + 1 {
        TimesMonotone(total / conns + 1, k, conns);
      }
    }
  }

  lemma TimesMonotone(a: nat, b: nat, c: nat)
    requires a <= b
    ensures a * c <= b * c
  {
  }

  /** On distress the total halves, down to the floor, and that becomes the level to
      come back to quickly. */
  lemma DistressHalves(c: Control, top: U64, shedNow: U64, nearLimit: bool)
    requires top >= MIN_TOTAL && (shedNow > c.lastShed || nearLimit)
    requires MIN_TOTAL <= c.total <= top
    ensures var next := Sample(c, top, shedNow, nearLimit);
            && next.total == next.ssthresh
            && (next.total == MIN_TOTAL || next.total * 2 <= c.total)
            && next.total <= c.total < 2 * (next.total + 1)
  {
  }

  // -------------------------------------------------------------------------
  // Recovery without distress.
  // -------------------------------------------------------------------------

  /** `n` samples with nothing newly shed, nothing near its limit and the same
      number of connections. */
  function Calm(c: Control, top: U64, n: nat): Control
    requires top >= MIN_TOTAL
  {
    if n == 0 then c else Sample(Calm(c, top, n - 1), top, c.lastShed, false)
  }

  /** One calm sample climbs at least by the step, or to the ceiling. */
  lemma CalmClimbs(c: Control, top: U64)
    requires top >= MIN_TOTAL && MIN_TOTAL <= c.total <= top
    ensures var next := Sample(c, top, c.lastShed, false);
            && c.total <= next.total <= top
            && next.total >= Min(c.total + Step(c.total), top)
            && next.lastShed == c.lastShed
  {
  }

  lemma {:induction false} CalmNeverFalls(c: Control, top: U64, n: nat)
    requires top >= MIN_TOTAL && MIN_TOTAL <= c.total <= top
    ensures var now := Calm(c, top, n);
            && c.total <= now.total <= top && now.lastShed == c.lastShed
    ensures Calm(c, top, n).total <= Calm(c, top, n + 1).total
  {
    if n > 0 {
      CalmNeverFalls(c, top, n - 1);
    }
    CalmClimbs(Calm(c, top, n), top);
  }

  lemma StepMonotone(a: U64, b: U64)
    requires a <= b
    ensures Step(a) <= Step(b)
  {
  }

  lemma OneMore(n: nat, step: nat)
    requires n > 0
    ensures n * step == (n - 1) * step + step
  {
  }

  /** Short of the ceiling, each calm sample adds at least the step of the total the
      first of them found. */
  lemma {:induction false} CalmAccumulates(c: Control, top: U64, n: nat)
    requires MIN_TOTAL <= c.total <= top
    ensures Calm(c, top, n).total >= Min(c.total + n * Step(c.total), top)
  {
    hide Sample, Step;
    if n > 0 {
      var before := Calm(c, top, n - 1);
      CalmAccumulates(c, top, n - 1);
      CalmNeverFalls(c, top, n - 1);
      CalmClimbs(before, top);
      StepMonotone(c.total, before.total);
      OneMore(n, Step(c.total));
    }
  }

  lemma {:induction false} CalmAdds(c: Control, top: U64, m: nat, n: nat)
    requires MIN_TOTAL <= c.total <= top
    ensures Calm(c, top, m).lastShed == c.lastShed && Calm(c, top, m + n) == Calm(Calm(c, top, m), top, n)
  {
    hide Sample;
    CalmNeverFalls(c, top, m);
    if n > 0 {
      CalmAdds(c, top, m, n - 1);
      assert Calm(c, top, m + n) == Sample(Calm(c, top, m + n - 1), top, c.lastShed, false);
    }
  }

  /** Sixteen calm samples at least double the total, or reach the ceiling. */
  lemma SixteenDouble(c: Control, top: U64)
    requires MIN_TOTAL <= c.total <= top
    ensures Calm(c, top, 16).total >= Min(2 * c.total, top)
  {
    hide Sample, Calm;
    var one := Calm(c, top, 1);
    CalmAccumulates(c, top, 1);
    CalmNeverFalls(c, top, 1);
    CalmAccumulates(one, top, 15);
    CalmAdds(c, top, 1, 15);
    if one.total < top {
      FifteenSteps(c.total, one.total);
    }
  }

  /** A sixteenth is rounded down, but from the second sample on it is a sixteenth
      of more. */
  lemma FifteenSteps(first: U64, second: U64)
    requires first >= MIN_TOTAL && second >= first + Step(first)
    ensures second + 15 * Step(second) >= 2 * first
  {
    assert first < 16 * (first / 16) + 16;
    assert second >= first + 32;
    assert second / 16 >= first / 16 + 2;
  }

  lemma {:induction false} DoublingReaches(c: Control, top: U64, k: nat)
    requires MIN_TOTAL <= c.total <= top
    ensures Calm(c, top, 16 * k).total >= Min(MIN_TOTAL * Pow2(k), top)
  {
    hide Sample, Calm;
    if k == 0 {
      CalmNeverFalls(c, top, 0);
    } else {
      var before := Calm(c, top, 16 * (k - 1));
      DoublingReaches(c, top, k - 1);
      CalmNeverFalls(c, top, 16 * (k - 1));
      CalmAdds(c, top, 16 * (k - 1), 16);
      SixteenDouble(before, top);
      assert Pow2(k) == 2 * Pow2(k - 1);
      assert 16 * (k - 1) + 16 == 16 * k;
    }
  }

  /** Recovery is logarithmic: from anywhere, sixteen samples for each doubling from
      the floor to the ceiling are enough, and the total stays there. */
  lemma RecoversWithin(c: Control, top: U64, k: nat, later: nat)
    requires top >= MIN_TOTAL && MIN_TOTAL <= c.total <= top
    requires MIN_TOTAL * Pow2(k) >= top
    ensures Calm(c, top, 16 * k + later).total == top
  {
    hide Sample, Calm;
    DoublingReaches(c, top, k);
    CalmNeverFalls(c, top, 16 * k);
    CalmAdds(c, top, 16 * k, later);
    CalmNeverFalls(Calm(c, top, 16 * k), top, later);
  }
}
