/** Flow-control windows (RFC 9113 sections 5.2 and 6.9): the credit a sender
    spends, the credit a receiver grants and takes back, and why the two
    accounts of one window always agree. */
module Flow {
  import opened Octets

  const I32_MAX: nat := 0x7fff_ffff
  const I32_MIN := -0x8000_0000
  const U32_LIMIT: nat := 0x1_0000_0000

  type I32 = n: int | I32_MIN <= n <= I32_MAX
  type U32 = n: nat | n < U32_LIMIT

  const MAX_WINDOW_SIZE: I32 := I32_MAX
  const DEFAULT_INITIAL_WINDOW_SIZE: I32 := 65_535

  /** The increment that lifts a connection window from the protocol's default
      to `window`, as a 32-bit cast of the difference. */
  function ConnectionWindowBootstrap(window: I32): U32
    requires window >= 0
  {
    (window - DEFAULT_INITIAL_WINDOW_SIZE) % U32_LIMIT
  }

  function SaturatingAdd(a: U32, b: U32): U32 {
    Min(a + b, U32_LIMIT - 1)
  }

  // -------------------------------------------------------------------------
  // The windows as values.
  // -------------------------------------------------------------------------

  /** Credit the peer gave us. Signed: a lowered INITIAL_WINDOW_SIZE may leave it
      below zero. Where a change is refused the answer is None, FLOW_CONTROL_ERROR. */
  datatype Window = Window(available: I32) {

    function Sendable(): nat {
      if available > 0 then available else 0
    }

    function Consume(len: U32): Option<Window> {
      if len > available then None else Some(Window(available - len))
    }

    function Increase(increment: U32): Option<Window> {
      if available + increment > MAX_WINDOW_SIZE then None else Some(Window(available + increment))
    }

    function ApplyDelta(delta: I32): Option<Window> {
      var next := available + delta;
      if next > MAX_WINDOW_SIZE then None
      else Some(Window(if next < I32_MIN then I32_MIN else next))
    }
  }

  /** Credit we gave the peer. Arrival and consumption are separate: octets are
      recorded as they come and released once they have been handed on. */
  datatype Receive = Receive(window: Window, unreleased: U32, initial: I32) {

    function Record(len: U32): Option<Receive> {
      match window.Consume(len)
      case None => None
      case Some(w) => Some(this.(window := w))
    }

    /** The window after `len` octets are consumed, and the WINDOW_UPDATE due. A
        refused restoration changes nothing but is announced all the same. */
    function Release(len: U32): (Receive, Option<U32>) {
      var total := SaturatingAdd(unreleased, len);
      if total * 2 < initial then (this.(unreleased := total), None)
      else
        var restored := if window.Increase(total).Some? then window.Increase(total).value else window;
        (Receive(restored, 0, initial), Some(total))
    }

    /** Whatever of the window is not with the peer has arrived and is held
        somewhere, or has been consumed and not yet announced. */
    ghost predicate Accounts(held: nat) {
      && 0 <= window.available
      && window.available + unreleased + held == initial
      && unreleased * 2 <= initial
      && (unreleased > 0 ==> unreleased * 2 < initial)
    }
  }

  function Opened(initial: I32): Receive {
    Receive(Window(initial), 0, initial)
  }

  /** Arrival moves credit from the peer to the octets held; it is refused exactly
      when the peer spent more than it had. */
  lemma RecordAccounts(r: Receive, held: nat, len: U32)
    requires r.Accounts(held)
    ensures r.Record(len).Some? <==> len <= r.window.available
    ensures r.Record(len).Some? ==> r.Record(len).value.Accounts(held + len)
  {
  }

  lemma RecordKeepsInitial(r: Receive, len: U32)
    ensures r.Record(len).Some? ==> r.Record(len).value.initial == r.initial
  {
  }

  /** Consumption never loses credit: what is not announced is remembered, what
      is announced is back in the window, and the restoration is never refused. */
  lemma ReleaseAccounts(r: Receive, held: nat, len: U32)
    requires r.Accounts(held) && len <= held
    ensures var (next, update) := r.Release(len);
            && next.Accounts(held - len) && next.initial == r.initial
            && (match update
                case None => next.window == r.window
                case Some(increment) => next.window.available == r.window.available + increment)
  {
  }

  /** With nothing held, more than half the window is with the peer. */
  lemma DrainedIsOverHalf(r: Receive)
    requires r.Accounts(0) && r.initial > 0
    ensures r.window.available * 2 > r.initial
  {
  }

  /** The bootstrap is an increment the protocol allows exactly for windows above
      the default, and then it lands on the window wanted. */
  lemma BootstrapIsLegal(window: I32)
    requires window >= 0
    ensures 1 <= ConnectionWindowBootstrap(window) <= I32_MAX <==> window > DEFAULT_INITIAL_WINDOW_SIZE
    ensures window >= DEFAULT_INITIAL_WINDOW_SIZE ==>
              Window(DEFAULT_INITIAL_WINDOW_SIZE).Increase(ConnectionWindowBootstrap(window)) == Some(Window(window))
  {
    if window >= DEFAULT_INITIAL_WINDOW_SIZE {
      assert ConnectionWindowBootstrap(window) == window - DEFAULT_INITIAL_WINDOW_SIZE;
    } else {
      assert ConnectionWindowBootstrap(window) == window - DEFAULT_INITIAL_WINDOW_SIZE + U32_LIMIT;
    }
  }

  // -------------------------------------------------------------------------
  // The windows as they are kept.
  // -------------------------------------------------------------------------

  class SendWindow {
    var value: I32

    ghost function State(): Window
      reads this
    {
      Window(value)
    }

    constructor (initial: I32)
      ensures State() == Window(initial)
    {
      value := initial;
    }

    method Consume(len: U32) returns (ok: bool)
      modifies this
      ensures ok <==> old(State()).Consume(len).Some?
      ensures State() == if ok then old(State()).Consume(len).value else old(State())
    {
      if len > value {
        return false;
      }
      value := value - len;
      return true;
    }

    method Increase(increment: U32) returns (ok: bool)
      modifies this
      ensures ok <==> old(State()).Increase(increment).Some?
      ensures State() == if ok then old(State()).Increase(increment).value else old(State())
    {
      var next := value + increment;
      if next > MAX_WINDOW_SIZE {
        return false;
      }
      value := next;
      return true;
    }

    method ApplyDelta(delta: I32) returns (ok: bool)
      modifies this
      ensures ok <==> old(State()).ApplyDelta(delta).Some?
      ensures State() == if ok then old(State()).ApplyDelta(delta).value else old(State())
    {
      var next := value + delta;
      if next > MAX_WINDOW_SIZE {
        return false;
      }
      value := if next < I32_MIN then I32_MIN else next;
      return true;
    }
  }

  class RecvWindow {
    const window: SendWindow
    var unreleased: U32
    const initial: I32

    ghost function State(): Receive
      reads this, window
    {
      Receive(window.State(), unreleased, initial)
    }

    constructor (initial: I32)
      ensures fresh(window) && State() == Opened(initial)
    {
      window := new SendWindow(initial);
      unreleased := 0;
      this.initial := initial;
    }

    method Record(len: U32) returns (ok: bool)
      modifies window
      ensures ok <==> old(State()).Record(len).Some?
      ensures State() == if ok then old(State()).Record(len).value else old(State())
    {
      ok := window.Consume(len);
    }

    method Release(len: U32) returns (update: Option<U32>)
      modifies this, window
      ensures (State(), update) == old(State()).Release(len)
    {
      unreleased := SaturatingAdd(unreleased, len);
      if unreleased * 2 < initial {
        return None;
      }
      var increment := unreleased;
      unreleased := 0;
      var _ := window.Increase(increment);
      return Some(increment);
    }
  }

  // -------------------------------------------------------------------------
  // Two ends of one window.
  // -------------------------------------------------------------------------

  function Sum(s: seq<U32>): nat {
    if s == [] then 0 else s[0] + Sum(s[1..])
  }

  lemma {:induction false} SumSnoc(s: seq<U32>, n: U32)
    ensures Sum(s + [n]) == Sum(s) + n
  {
    if s == [] {
      assert [] + [n] == [n] && [n][1..] == [];
    } else {
      assert (s + [n])[1..] == s[1..] + [n];
      SumSnoc(s[1..], n);
    }
  }

  /** What one DATA frame weighs: its octets, and the padding beside them with the
      octet that counts it. A sender is charged for both (section 6.1 of RFC 9113). */
  datatype Payload = Payload(len: U32, pad: nat) {
    function Charge(): nat {
      len + pad
    }
  }

  /** A frame's padding is at most 255 octets and the one that counts them. */
  const MAX_PADDING: nat := 256

  function Charges(s: seq<Payload>): nat {
    if s == [] then 0 else s[0].Charge() + Charges(s[1..])
  }

  lemma {:induction false} ChargesSnoc(s: seq<Payload>, x: Payload)
    ensures Charges(s + [x]) == Charges(s) + x.Charge()
  {
    if s == [] {
      assert [] + [x] == [x] && [x][1..] == [];
    } else {
      assert (s + [x])[1..] == s[1..] + [x];
      ChargesSnoc(s[1..], x);
    }
  }

  /** A sender and a receiver of one window, with DATA and WINDOW_UPDATE frames
      travelling between them in order, what the receiving end holds, and how much
      padding has arrived, which the receiving end strips before it counts. */
  datatype Pair = Pair(
    sender: Window, data: seq<Payload>, updates: seq<U32>, receiver: Receive, held: nat, padded: nat)

  datatype Move =
    | Send(len: U32, pad: nat)
    | DataArrives
    | Consume(len: U32)
    | UpdateArrives

  /** One move; None when an end reports a violation. A sender asks its window
      before it sends, padding included; a consumer takes only what it was handed;
      and a frame arrives only if there is one. */
  function Moved(p: Pair, m: Move): Option<Pair> {
    match m
    case Send(len, pad) =>
      if pad > MAX_PADDING || len + pad >= U32_LIMIT then Some(p)
      else
        var spent := p.sender.Consume(len + pad);
        if spent == None then Some(p) else Some(p.(sender := spent.value, data := p.data + [Payload(len, pad)]))
    case DataArrives =>
      if p.data == [] then Some(p)
      else
        var recorded := p.receiver.Record(p.data[0].len);
        if recorded == None then None
        else Some(p.(data := p.data[1..], receiver := recorded.value,
                     held := p.held + p.data[0].len, padded := p.padded + p.data[0].pad))
    case Consume(len) =>
      if len > p.held then Some(p)
      else
        var (receiver, update) := p.receiver.Release(len);
        Some(p.(receiver := receiver, held := p.held - len,
                updates := p.updates + (if update.Some? then [update.value] else [])))
    case UpdateArrives =>
      if p.updates == [] then Some(p)
      else
        var credited := p.sender.Increase(p.updates[0]);
        if credited == None then None
        else Some(p.(updates := p.updates[1..], sender := credited.value))
  }

  function AllMoved(p: Pair, moves: seq<Move>): Option<Pair>
    decreases |moves|
  {
    if moves == [] then Some(p)
    else
      var next := Moved(p, moves[0]);
      if next == None then None else AllMoved(next.value, moves[1..])
  }

  /** What the sender has or will have: its credit, what travels, and what is on
      its way back. */
  function Outside(p: Pair): int {
    p.sender.available + Charges(p.data) + Sum(p.updates)
  }

  /** The two ends agree on the window. */
  predicate Agree(p: Pair) {
    Outside(p) == p.receiver.window.available
  }

  /** What the receiver will still accept is what is outside and the padding it
      never counted, which nobody will credit again. */
  ghost predicate Squared(p: Pair) {
    && p.sender.available >= 0
    && Outside(p) + p.padded == p.receiver.window.available
    && p.receiver.Accounts(p.held)
  }

  /** How a window opens: the receiver grants `window`, the sender starts from
      `start` and the difference travels as the first WINDOW_UPDATE. */
  function Fresh(start: I32, window: I32): Pair
    requires 0 <= start <= window
  {
    Pair(Window(start), [], if start == window then [] else [window - start], Opened(window), 0, 0)
  }

  /** The connection window as the handshake opens it. */
  lemma HandshakeAgrees(window: I32)
    requires window > DEFAULT_INITIAL_WINDOW_SIZE
    ensures Fresh(DEFAULT_INITIAL_WINDOW_SIZE, window).updates == [ConnectionWindowBootstrap(window)]
    ensures Agree(Fresh(DEFAULT_INITIAL_WINDOW_SIZE, window))
  {
    BootstrapIsLegal(window);
    FreshAgrees(DEFAULT_INITIAL_WINDOW_SIZE, window);
  }

  lemma FreshAgrees(start: I32, window: I32)
    requires 0 <= start <= window
    ensures Agree(Fresh(start, window)) && Squared(Fresh(start, window))
  {
    if start != window {
      SumSnoc([], window - start);
      assert [] + [window - start] == [window - start];
    }
  }

  lemma MoveSquares(p: Pair, m: Move)
    requires Squared(p)
    ensures Moved(p, m).Some? && Squared(Moved(p, m).value)
    ensures Moved(p, m).value.receiver.initial == p.receiver.initial
  {
    match m
    case Send(len, pad) => ChargesSnoc(p.data, Payload(len, pad));
    case DataArrives =>
      if p.data != [] {
        RecordAccounts(p.receiver, p.held, p.data[0].len);
      }
    case Consume(len) =>
      if len <= p.held {
        ReleaseAccounts(p.receiver, p.held, len);
        var update := p.receiver.Release(len).1;
        if update.Some? {
          SumSnoc(p.updates, update.value);
        } else {
          assert p.updates + [] == p.updates;
        }
      }
    case UpdateArrives =>
  }

  /** Over any run the receiver never sees more than it granted, the sender is
      never credited past the largest window, and the two accounts differ by exactly
      the padding that has arrived. */
  lemma {:induction false} AlwaysSquared(p: Pair, moves: seq<Move>)
    requires Squared(p)
    ensures AllMoved(p, moves).Some? && Squared(AllMoved(p, moves).value)
    ensures AllMoved(p, moves).value.receiver.initial == p.receiver.initial
    decreases |moves|
  {
    if moves != [] {
      MoveSquares(p, moves[0]);
      AlwaysSquared(Moved(p, moves[0]).value, moves[1..]);
    }
  }

  /** Padding that has been sent and is travelling, or has arrived. */
  function Padding(p: Pair): nat {
    p.padded + PaddingIn(p.data)
  }

  function PaddingIn(s: seq<Payload>): nat {
    if s == [] then 0 else s[0].pad + PaddingIn(s[1..])
  }

  lemma {:induction false} PaddingSnoc(s: seq<Payload>, x: Payload)
    ensures PaddingIn(s + [x]) == PaddingIn(s) + x.pad
  {
    if s == [] {
      assert [] + [x] == [x] && [x][1..] == [];
    } else {
      assert (s + [x])[1..] == s[1..] + [x];
      PaddingSnoc(s[1..], x);
    }
  }

  /** A peer that never pads leaves no padding anywhere. */
  lemma {:induction false} UnpaddedStaysSo(p: Pair, moves: seq<Move>)
    requires Padding(p) == 0 && forall m :: m in moves && m.Send? ==> m.pad == 0
    ensures AllMoved(p, moves).Some? ==> Padding(AllMoved(p, moves).value) == 0
    decreases |moves|
  {
    if moves != [] && Moved(p, moves[0]).Some? {
      var m := moves[0];
      if m.Send? {
        PaddingSnoc(p.data, Payload(m.len, m.pad));
      }
      UnpaddedStaysSo(Moved(p, m).value, moves[1..]);
    }
  }

  /** Over any run from the opening of a window, nothing is ever reported a
      violation, and the two ends agree if and only if no padding has arrived; with a
      peer that never pads they always do. */
  lemma AlwaysAgree(start: I32, window: I32, moves: seq<Move>)
    requires 0 <= start <= window
    ensures var p := AllMoved(Fresh(start, window), moves);
            && p.Some?
            && Outside(p.value) + p.value.padded == p.value.receiver.window.available
            && (Agree(p.value) <==> p.value.padded == 0)
            && ((forall m :: m in moves && m.Send? ==> m.pad == 0) ==> Agree(p.value))
  {
    FreshAgrees(start, window);
    AlwaysSquared(Fresh(start, window), moves);
    if forall m :: m in moves && m.Send? ==> m.pad == 0 {
      UnpaddedStaysSo(Fresh(start, window), moves);
    }
  }

  /** A sender is never stopped by accounting alone: its credit, what travels, what
      the far end has yet to consume and the padding it has spent are always more
      than half the window. In particular once everything has arrived and been
      consumed, the sender itself holds more than half, but for its padding. */
  lemma NeverStranded(start: I32, window: I32, moves: seq<Move>)
    requires 0 <= start <= window && window > 0
    ensures var p := AllMoved(Fresh(start, window), moves);
            && p.Some?
            && (Outside(p.value) + p.value.held + p.value.padded) * 2 > window
            && (p.value.data == [] && p.value.updates == [] && p.value.held == 0 ==>
                  (p.value.sender.available + p.value.padded) * 2 > window)
  {
    FreshAgrees(start, window);
    AlwaysSquared(Fresh(start, window), moves);
  }

  // -------------------------------------------------------------------------
  // A peer that pads.
  // -------------------------------------------------------------------------

  /** `n` frames of nothing but padding, each arriving before the next is sent. */
  function Rounds(n: nat, pad: nat): seq<Move> {
    if n == 0 then [] else [Send(0, pad), DataArrives] + Rounds(n - 1, pad)
  }

  lemma {:induction false} MovedThrough(p: Pair, a: seq<Move>, b: seq<Move>)
    requires AllMoved(p, a).Some?
    ensures AllMoved(p, a + b) == AllMoved(AllMoved(p, a).value, b)
    decreases |a|
  {
    if a == [] {
      assert a + b == b;
    } else {
      assert (a + b)[1..] == a[1..] + b;
      MovedThrough(Moved(p, a[0]).value, a[1..], b);
    }
  }

  /** Nothing travels, and nothing is held that might be credited. */
  predicate Quiet(p: Pair) {
    p.data == [] && p.updates == [] && p.held == 0
  }

  /** The pair once `n` octets of padding have gone. */
  function Padded(p: Pair, n: nat): Pair
    requires n <= p.sender.available
  {
    p.(sender := Window(p.sender.available - n), padded := p.padded + n)
  }

  lemma PaddedSquares(p: Pair, n: nat)
    requires Quiet(p) && Squared(p) && n <= p.sender.available
    ensures Quiet(Padded(p, n)) && Squared(Padded(p, n))
  {
  }

  lemma OneRound(p: Pair, pad: nat)
    requires Quiet(p) && Squared(p) && pad <= MAX_PADDING && pad <= p.sender.available
    ensures AllMoved(p, [Send(0, pad), DataArrives]) == Some(Padded(p, pad))
  {
    hide Charges, Sum, Squared;
    var sent := p.(sender := Window(p.sender.available - pad), data := [Payload(0, pad)]);
    assert Moved(p, Send(0, pad)) == Some(sent) by {
      assert p.data + [Payload(0, pad)] == [Payload(0, pad)];
    }
    assert Moved(sent, DataArrives) == Some(Padded(p, pad)) by {
      RecordsNothing(p);
      assert sent.data[1..] == p.data;
    }
    assert [Send(0, pad), DataArrives][1..] == [DataArrives] && [DataArrives][1..] == [];
    assert AllMoved(sent, [DataArrives]) == Some(Padded(p, pad));
  }

  lemma RecordsNothing(p: Pair)
    requires Squared(p)
    ensures p.receiver.Record(0) == Some(p.receiver)
  {
  }

  lemma {:induction false} ManyRounds(p: Pair, n: nat, pad: nat, all: nat)
    requires Quiet(p) && Squared(p) && pad <= MAX_PADDING && all == n * pad && all <= p.sender.available
    ensures AllMoved(p, Rounds(n, pad)) == Some(Padded(p, all))
    decreases n
  {
    hide Moved, Quiet, Squared;
    if n > 0 {
      assert all == (n - 1) * pad + pad && (n - 1) * pad >= 0;
      OneRound(p, pad);
      PaddedSquares(p, pad);
      MovedThrough(p, [Send(0, pad), DataArrives], Rounds(n - 1, pad));
      ManyRounds(Padded(p, pad), n - 1, pad, all - pad);
    }
  }

  /** Whatever the window, a peer that sends only padding spends all of it and is
      owed nothing: the receiver still offers the whole window, and no credit comes
      back whatever either end goes on to do. */
  lemma PaddingStrands(window: I32, later: seq<Move>)
    requires window > 0
    ensures var run := Rounds(window / MAX_PADDING, MAX_PADDING) + Rounds(1, window % MAX_PADDING);
            var p := AllMoved(Fresh(window, window), run);
            && p == Some(Pair(Window(0), [], [], Opened(window), 0, window))
            && AllMoved(p.value, later).Some? && AllMoved(p.value, later).value.sender.available == 0
  {
    var n, last, full := window / MAX_PADDING, window % MAX_PADDING, Fresh(window, window);
    FreshAgrees(window, window);
    ManyRounds(full, n, MAX_PADDING, n * MAX_PADDING);
    PaddedSquares(full, n * MAX_PADDING);
    var p := Padded(full, n * MAX_PADDING);
    MovedThrough(full, Rounds(n, MAX_PADDING), Rounds(1, last));
    ManyRounds(p, 1, last, last);
    PaddedSquares(p, last);
    StrandedStays(Padded(p, last), later);
  }

  /** A sender without credit, with nothing but empty frames on the way. */
  predicate Stranded(p: Pair) {
    && p.sender.available == 0 && p.updates == [] && p.held == 0 && p.receiver.unreleased == 0 && p.receiver.initial > 0
    && forall x :: x in p.data ==> x.len == 0 && x.pad == 0
  }

  lemma StrandedMove(p: Pair, m: Move)
    requires Stranded(p) && Squared(p) && Moved(p, m).Some?
    ensures Stranded(Moved(p, m).value)
  {
    hide Squared, Charges, Sum;
    match m
    case Send(len, pad) =>
    case DataArrives =>
      if p.data != [] {
        assert p.data[0] in p.data && forall x :: x in p.data[1..] ==> x in p.data;
      }
    case Consume(len) => ReleasesNothing(p.receiver);
    case UpdateArrives =>
  }

  lemma ReleasesNothing(r: Receive)
    requires r.unreleased == 0 && r.initial > 0
    ensures r.Release(0).1 == None && r.Release(0).0.unreleased == 0 && r.Release(0).0.initial == r.initial
  {
  }

  lemma {:induction false} StrandedStays(p: Pair, moves: seq<Move>)
    requires Stranded(p) && Squared(p)
    ensures AllMoved(p, moves).Some? && AllMoved(p, moves).value.sender.available == 0
    decreases |moves|
  {
    if moves != [] {
      hide Moved, Squared, Stranded;
      MoveSquares(p, moves[0]);
      StrandedMove(p, moves[0]);
      StrandedStays(Moved(p, moves[0]).value, moves[1..]);
    }
  }
}
