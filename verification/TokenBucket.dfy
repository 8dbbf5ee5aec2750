/** The abuse guard's token bucket, over real time: exactly which event trips it
    first, and how much it ever lets through. */
module TokenBucket {
  import opened Octets

  datatype Rate = PerSecond(r: real) | Unlimited

  function MinReal(a: real, b: real): real {
    if a <= b then a else b
  }

  /** Tokens added over a stretch of time. */
  function Gain(rate: real, length: real): real {
    rate * length
  }

  datatype Bucket = Bucket(tokens: real, last: real, burst: real, rate: Rate) {

    /** Spend one token, if there is one. A clock that goes back adds nothing. */
    function Take(now: real): (Bucket, bool) {
      var elapsed := if now > last then now - last else 0.0;
      var filled := match rate
        case PerSecond(r) => MinReal(tokens + Gain(r, elapsed), burst)
        case Unlimited => burst;
      if filled < 1.0 then (this.(tokens := filled, last := now), false)
      else (this.(tokens := filled - 1.0, last := now), true)
    }
  }

  function Full(burst: real, rate: Rate, now: real): Bucket {
    Bucket(burst, now, burst, rate)
  }

  class Meter {
    var tokens: real
    var last: real
    const burst: real
    const rate: Rate

    ghost function State(): Bucket
      reads this
    {
      Bucket(tokens, last, burst, rate)
    }

    constructor (burst: real, rate: Rate, now: real)
      ensures State() == Full(burst, rate, now)
    {
      tokens, last := burst, now;
      this.burst, this.rate := burst, rate;
    }

    method Take(now: real) returns (ok: bool)
      modifies this
      ensures (State(), ok) == old(State()).Take(now)
    {
      var elapsed := if now > last then now - last else 0.0;
      last := now;
      if rate.PerSecond? {
        tokens := MinReal(tokens + Gain(rate.r, elapsed), burst);
      } else {
        tokens := burst;
      }
      if tokens < 1.0 {
        return false;
      }
      tokens := tokens - 1.0;
      return true;
    }
  }

  datatype Signal = Resets | UnansweredResets

  datatype Verdict = Pass | Trip(signal: Signal)

  /** Resets are counted twice: all of them, and those of streams never answered.
      The second count does not see an event that trips the first. */
  function OnReset(all: Bucket, unanswered: Bucket, answered: bool, now: real, observeOnly: bool): (Bucket, Bucket, Verdict) {
    var (all1, ok) := all.Take(now);
    if !ok then (all1, unanswered, if observeOnly then Pass else Trip(Resets))
    else if answered then (all1, unanswered, Pass)
    else
      var (unanswered1, ok1) := unanswered.Take(now);
      (all1, unanswered1, if ok1 || observeOnly then Pass else Trip(UnansweredResets))
  }

  class Guard {
    const resets: Meter
    const unanswered: Meter
    const observeOnly: bool

    constructor (resets: Meter, unanswered: Meter, observeOnly: bool)
      ensures this.resets == resets && this.unanswered == unanswered && this.observeOnly == observeOnly
    {
      this.resets, this.unanswered, this.observeOnly := resets, unanswered, observeOnly;
    }

    method RecordReset(answered: bool, now: real) returns (v: Verdict)
      requires resets != unanswered
      modifies resets, unanswered
      ensures (resets.State(), unanswered.State(), v)
              == OnReset(old(resets.State()), old(unanswered.State()), answered, now, observeOnly)
    {
      var ok := resets.Take(now);
      if !ok {
        return if observeOnly then Pass else Trip(Resets);
      }
      if !answered {
        ok := unanswered.Take(now);
        if !ok {
          return if observeOnly then Pass else Trip(UnansweredResets);
        }
      }
      return Pass;
    }
  }

  // -------------------------------------------------------------------------
  // Runs of events.
  // -------------------------------------------------------------------------

  ghost predicate Monotone(start: real, times: seq<real>) {
    && (forall i :: 0 <= i < |times| ==> start <= times[i])
    && (forall i, j :: 0 <= i < j < |times| ==> times[i] <= times[j])
  }

  /** The bucket after a run of events. */
  function After(b: Bucket, times: seq<real>): Bucket
    decreases |times|
  {
    if times == [] then b else After(b, times[..|times| - 1]).Take(times[|times| - 1]).0
  }

  /** Whether it let the last of them through. */
  predicate Accepts(b: Bucket, times: seq<real>)
    requires times != []
  {
    After(b, times[..|times| - 1]).Take(times[|times| - 1]).1
  }

  predicate AllAccepted(b: Bucket, times: seq<real>)
    decreases |times|
  {
    times == [] || (AllAccepted(b, times[..|times| - 1]) && Accepts(b, times))
  }

  /** How many of the events from the `i`-th on it let through. */
  function Through(b: Bucket, times: seq<real>, i: nat): nat
    decreases |times|
  {
    if |times| <= i then 0
    else Through(b, times[..|times| - 1], i) + (if Accepts(b, times) then 1 else 0)
  }

  /** What the envelope allows in a window of the given length. */
  function Allowance(burst: real, rate: real, length: real): real {
    burst + Gain(rate, length)
  }

  function Length(times: seq<real>, i: nat): real
    requires i < |times|
  {
    times[|times| - 1] - times[i]
  }

  /** The window from the `i`-th event to the last holds more than the envelope. */
  predicate Bursts(burst: real, rate: real, times: seq<real>, i: nat)
    requires i < |times|
  {
    (|times| - i) as real > Allowance(burst, rate, Length(times, i))
  }

  ghost predicate Exceeds(burst: real, rate: real, times: seq<real>) {
    exists i :: 0 <= i < |times| && Bursts(burst, rate, times, i)
  }

  lemma GainAdds(rate: real, a: real, b: real)
    ensures Gain(rate, a + b) == Gain(rate, a) + Gain(rate, b)
  {
  }

  lemma GainIsPositive(rate: real, length: real)
    requires rate >= 0.0 && length >= 0.0
    ensures Gain(rate, length) >= 0.0 && Gain(rate, 0.0) == 0.0
  {
  }

  /** A bucket that starts full and refills at a finite rate. */
  predicate Standard(b: Bucket) {
    && b.rate.PerSecond? && b.rate.r >= 0.0
    && b.tokens == b.burst
  }

  lemma {:induction false} AfterShape(b: Bucket, times: seq<real>)
    ensures var a := After(b, times); a.burst == b.burst && a.rate == b.rate
    ensures After(b, times).last == if times == [] then b.last else times[|times| - 1]
    decreases |times|
  {
    if times != [] {
      AfterShape(b, times[..|times| - 1]);
    }
  }

  /** The tokens at the last event, before it is judged. */
  function Filled(b: Bucket, times: seq<real>): real
    requires times != [] && b.rate.PerSecond?
  {
    var before := After(b, times[..|times| - 1]);
    MinReal(before.tokens + Gain(b.rate.r, times[|times| - 1] - before.last), b.burst)
  }

  lemma {:induction false} FilledDecides(b: Bucket, times: seq<real>)
    requires Standard(b) && times != [] && Monotone(b.last, times)
    ensures Accepts(b, times) <==> Filled(b, times) >= 1.0
    ensures After(b, times).tokens == if Accepts(b, times) then Filled(b, times) - 1.0 else Filled(b, times)
  {
    hide Gain;
    var past := times[..|times| - 1];
    AfterShape(b, past);
    GainIsPositive(b.rate.r, 0.0);
  }

  lemma MonotonePast(start: real, times: seq<real>)
    requires Monotone(start, times) && times != []
    ensures Monotone(start, times[..|times| - 1])
    ensures |times| > 1 ==> times[|times| - 2] <= times[|times| - 1]
    ensures start <= times[|times| - 1]
  {
  }

  // -------------------------------------------------------------------------
  // The first trip.
  // -------------------------------------------------------------------------

  /** What would be left at the last event had the `i`-th found the bucket full and
      everything between been accepted. */
  function Left(b: Bucket, times: seq<real>, i: nat): real
    requires i < |times| && b.rate.PerSecond?
  {
    Allowance(b.burst, b.rate.r, Length(times, i)) - (|times| - 1 - i) as real
  }

  lemma LeftGrows(b: Bucket, times: seq<real>, i: nat)
    requires |times| > 1 && i < |times| - 1 && b.rate.PerSecond?
    ensures Left(b, times, i) ==
            Left(b, times[..|times| - 1], i) - 1.0 + Gain(b.rate.r, times[|times| - 1] - times[|times| - 2])
  {
    hide Gain;
    var n := |times|;
    GainAdds(b.rate.r, times[n - 1] - times[n - 2], times[n - 2] - times[i]);
    assert (times[n - 1] - times[n - 2]) + (times[n - 2] - times[i]) == times[n - 1] - times[i];
  }

  lemma LeftNow(b: Bucket, times: seq<real>)
    requires times != [] && b.rate.PerSecond?
    ensures Left(b, times, |times| - 1) == b.burst
  {
    assert times[|times| - 1] - times[|times| - 1] == 0.0;
  }

  /** While everything has been accepted, the tokens at an event are the least of
      what every earlier event would leave. */
  lemma {:induction false} FilledIsLeast(b: Bucket, times: seq<real>) returns (least: nat)
    requires Standard(b) && times != [] && Monotone(b.last, times) && AllAccepted(b, times[..|times| - 1])
    ensures forall i :: 0 <= i < |times| ==> Filled(b, times) <= Left(b, times, i)
    ensures least < |times| && Filled(b, times) == Left(b, times, least)
    decreases |times|
  {
    hide Gain, Left, Bucket.Take;
    var n := |times|;
    var past := times[..n - 1];
    AfterShape(b, past);
    MonotonePast(b.last, times);
    LeftNow(b, times);
    least := n - 1;
    if n == 1 {
      GainIsPositive(b.rate.r, times[0] - b.last);
    } else {
      var least0 := FilledIsLeast(b, past);
      FilledDecides(b, past);
      forall i | 0 <= i < n
        ensures Filled(b, times) <= Left(b, times, i)
      {
        if i < n - 1 {
          LeftGrows(b, times, i);
        }
      }
      if Filled(b, times) != b.burst {
        least := least0;
        LeftGrows(b, times, least0);
      }
    }
  }

  lemma BurstsLeft(b: Bucket, times: seq<real>, i: nat)
    requires Standard(b) && i < |times|
    ensures Bursts(b.burst, b.rate.r, times, i) <==> Left(b, times, i) < 1.0
  {
    hide Gain;
    assert (|times| - i) as real == (|times| - 1 - i) as real + 1.0;
  }

  /** The first trip, exactly: when every event before it was accepted, an event is
      refused if and only if it ends some window holding more than burst plus rate
      times length. */
  lemma {:induction false} FirstTripExactly(b: Bucket, times: seq<real>)
    requires Standard(b) && times != [] && Monotone(b.last, times) && AllAccepted(b, times[..|times| - 1])
    ensures !Accepts(b, times) <==> Exceeds(b.burst, b.rate.r, times)
  {
    hide Gain, Left, Bursts, Accepts, Filled;
    var least := FilledIsLeast(b, times);
    FilledDecides(b, times);
    BurstsLeft(b, times, least);
    if Exceeds(b.burst, b.rate.r, times) {
      var i :| 0 <= i < |times| && Bursts(b.burst, b.rate.r, times, i);
      BurstsLeft(b, times, i);
    }
  }

  /** Traffic within the envelope never trips, and that is the only traffic that
      never does. */
  lemma {:induction false} WithinEnvelopeNeverTrips(b: Bucket, times: seq<real>)
    requires Standard(b) && Monotone(b.last, times)
    ensures AllAccepted(b, times) <==> forall k :: 0 < k <= |times| ==> !Exceeds(b.burst, b.rate.r, times[..k])
    decreases |times|
  {
    if times != [] {
      hide Exceeds, Accepts;
      var past := times[..|times| - 1];
      MonotonePast(b.last, times);
      WithinEnvelopeNeverTrips(b, past);
      assert forall k :: 0 < k <= |past| ==> past[..k] == times[..k];
      assert times[..|times|] == times;
      if AllAccepted(b, past) {
        FirstTripExactly(b, times);
      } else {
        var k :| 0 < k <= |past| && Exceeds(b.burst, b.rate.r, past[..k]);
        assert Exceeds(b.burst, b.rate.r, times[..k]);
      }
    }
  }

  // -------------------------------------------------------------------------
  // What gets through, trips or no trips.
  // -------------------------------------------------------------------------

  lemma {:induction false} TokensPositive(b: Bucket, times: seq<real>)
    requires Standard(b) && b.burst >= 0.0 && Monotone(b.last, times)
    ensures After(b, times).tokens >= 0.0
    decreases |times|
  {
    if times != [] {
      hide Gain, Bucket.Take;
      var past := times[..|times| - 1];
      MonotonePast(b.last, times);
      TokensPositive(b, past);
      AfterShape(b, past);
      FilledDecides(b, times);
      GainIsPositive(b.rate.r, times[|times| - 1] - After(b, past).last);
    }
  }

  lemma {:induction false} TokensBound(b: Bucket, times: seq<real>, i: nat)
    requires Standard(b) && Monotone(b.last, times) && i < |times|
    ensures After(b, times).tokens <= Allowance(b.burst, b.rate.r, Length(times, i)) - Through(b, times, i) as real
    decreases |times|
  {
    hide Gain, Bucket.Take, Accepts;
    var n := |times|;
    var past := times[..n - 1];
    MonotonePast(b.last, times);
    AfterShape(b, past);
    FilledDecides(b, times);
    GainIsPositive(b.rate.r, 0.0);
    if i < n - 1 {
      TokensBound(b, past, i);
      GainAdds(b.rate.r, times[n - 1] - times[n - 2], times[n - 2] - times[i]);
      assert (times[n - 1] - times[n - 2]) + (times[n - 2] - times[i]) == times[n - 1] - times[i];
    } else {
      assert Length(times, i) == 0.0 && Through(b, past, i) == 0;
    }
  }

  /** Whatever is refused on the way, the events accepted in any window never exceed
      burst plus rate times its length. */
  lemma {:induction false} AcceptedWithinEnvelope(b: Bucket, times: seq<real>, i: nat)
    requires Standard(b) && b.burst >= 0.0 && Monotone(b.last, times) && i < |times|
    ensures Through(b, times, i) as real <= Allowance(b.burst, b.rate.r, Length(times, i))
  {
    hide Gain, Allowance;
    TokensPositive(b, times);
    TokensBound(b, times, i);
  }
}
