/** The concurrency limit a connection enforces (RFC 9113 sections 5.1.2 and
    6.5.3): raised at once, lowered only when the peer has acknowledged everything
    sent, so that a peer obeying the limits it has heard of is never refused. */
module AdmissionLimit {
  import opened Octets
  import opened Flow

  /** What the connection keeps: the limit last sent, the limit enforced, and how
      many of its SETTINGS frames are not yet acknowledged. */
  datatype Limits = Limits(advertised: U32, enforced: U32, outstanding: U32) {

    /** Follow the shared budget; the limit to send, if it has moved. */
    function Sync(want: U32): (Limits, Option<U32>) {
      if want == advertised then (this, None)
      else (Limits(want, if want > enforced then want else enforced, SaturatingAdd(outstanding, 1)), Some(want))
    }

    function Acked(): Limits {
      var left: U32 := if outstanding == 0 then 0 else outstanding - 1;
      if left == 0 then Limits(advertised, advertised, 0) else this.(outstanding := left)
    }
  }

  class Admission {
    var advertised: U32
    var enforced: U32
    var outstanding: U32

    ghost function State(): Limits
      reads this
    {
      Limits(advertised, enforced, outstanding)
    }

    /** The handshake SETTINGS carries `initial` and has yet to be acknowledged;
        the static ceiling is enforced until it is. */
    constructor (initial: U32, ceiling: U32)
      ensures State() == Limits(initial, ceiling, 1)
    {
      advertised, enforced, outstanding := initial, ceiling, 1;
    }

    method SyncAdmission(want: U32) returns (send: Option<U32>)
      modifies this
      ensures (State(), send) == old(State()).Sync(want)
    {
      if want == advertised {
        return None;
      }
      advertised := want;
      outstanding := SaturatingAdd(outstanding, 1);
      if want > enforced {
        enforced := want;
      }
      return Some(want);
    }

    method OnSettingsAck()
      modifies this
      ensures State() == old(State()).Acked()
    {
      if outstanding > 0 {
        outstanding := outstanding - 1;
      }
      if outstanding == 0 && advertised != enforced {
        enforced := advertised;
      }
    }
  }

  // -------------------------------------------------------------------------
  // The connection and its peer.
  // -------------------------------------------------------------------------

  /** What the peer has sent, in order: acknowledgements, and streams it opened,
      each with the limit it was obeying and how many it had open. */
  datatype FromPeer = Ack | Opening(limit: U32, count: nat)

  /** Both ends. The peer obeys `limit`: the static ceiling until the first SETTINGS
      it reads, and the last it has read after that. */
  datatype Link = Link(limits: Limits, toPeer: seq<U32>, limit: U32, fromPeer: seq<FromPeer>, refused: bool)

  datatype Turn =
    | BudgetMoves(want: U32)
    | PeerReads
    | PeerOpens(count: nat)
    | Arrives(live: nat)

  /** A stream is refused when as many are live in the table, on its arrival, as the
      limit enforced. */
  function Take(l: Link, t: Turn): Link {
    match t
    case BudgetMoves(want) =>
      var (limits, send) := l.limits.Sync(want);
      l.(limits := limits, toPeer := if send.Some? then l.toPeer + [send.value] else l.toPeer)
    case PeerReads =>
      if l.toPeer == [] then l
      else l.(limit := l.toPeer[0], toPeer := l.toPeer[1..], fromPeer := l.fromPeer + [Ack])
    case PeerOpens(count) =>
      if count < l.limit then l.(fromPeer := l.fromPeer + [Opening(l.limit, count)]) else l
    case Arrives(live) =>
      if l.fromPeer == [] then l
      else
        match l.fromPeer[0]
        case Ack => l.(limits := l.limits.Acked(), fromPeer := l.fromPeer[1..])
        case Opening(_, _) =>
          l.(fromPeer := l.fromPeer[1..], refused := l.refused || live >= l.limits.enforced)
  }

  function TakeAll(l: Link, turns: seq<Turn>): Link
    decreases |turns|
  {
    if turns == [] then l else TakeAll(Take(l, turns[0]), turns[1..])
  }

  function Acks(s: seq<FromPeer>): nat {
    if s == [] then 0 else (if s[0].Ack? then 1 else 0) + Acks(s[1..])
  }

  function Start(initial: U32, ceiling: U32): Link {
    Link(Limits(initial, ceiling, 1), [initial], ceiling, [], false)
  }

  /** The limits the peer may still be operating under, or come to. */
  ghost predicate Covers(l: Link) {
    && l.limit <= l.limits.enforced
    && (forall v :: v in l.toPeer ==> v <= l.limits.enforced)
    && (forall f :: f in l.fromPeer && f.Opening? ==> f.count < f.limit <= l.limits.enforced)
  }

  /** Nothing sent is forgotten, and what is enforced follows. */
  ghost predicate Counted(l: Link) {
    && l.limits.outstanding == |l.toPeer| + Acks(l.fromPeer)
    && (l.toPeer == [] ==> l.limit == l.limits.advertised)
    && (l.toPeer != [] ==> l.toPeer[|l.toPeer| - 1] == l.limits.advertised)
    && (Acks(l.fromPeer) == 0 ==> forall f :: f in l.fromPeer && f.Opening? ==> f.limit == l.limit)
    && LateOnes(l.fromPeer, l.limit)
    && (l.limits.outstanding == 0 ==> l.limits.enforced == l.limits.advertised)
  }

  /** Streams opened since the last acknowledgement were opened under the limit the
      peer obeys now. */
  predicate LateOnes(s: seq<FromPeer>, limit: U32)
    decreases |s|
  {
    s == [] ||
    (var last := s[|s| - 1];
     last.Ack? || (last.limit == limit && LateOnes(s[..|s| - 1], limit)))
  }

  ghost predicate Fair(l: Link) {
    Covers(l) && Counted(l) && !l.refused
  }

  lemma {:induction false} AcksSnoc(s: seq<FromPeer>, f: FromPeer)
    ensures Acks(s + [f]) == Acks(s) + (if f.Ack? then 1 else 0)
  {
    if s == [] {
      assert [] + [f] == [f] && [f][1..] == [];
    } else {
      assert (s + [f])[1..] == s[1..] + [f];
      AcksSnoc(s[1..], f);
    }
  }

  lemma {:induction false} LateOnesTail(s: seq<FromPeer>, limit: U32)
    requires s != [] && LateOnes(s, limit)
    ensures LateOnes(s[1..], limit)
    ensures Acks(s[1..]) == 0 && s[0].Ack? ==> forall f :: f in s[1..] && f.Opening? ==> f.limit == limit
    decreases |s|
  {
    if |s| > 1 {
      var past, last := s[..|s| - 1], s[|s| - 1];
      assert s[1..][..|s| - 2] == past[1..];
      assert s[1..] == past[1..] + [last];
      AcksSnoc(past[1..], last);
      if last.Opening? {
        LateOnesTail(past, limit);
      }
    }
  }

  lemma ReadsFair(l: Link)
    requires Fair(l) && l.limits.outstanding < U32_LIMIT - 1
    ensures Fair(Take(l, PeerReads))
  {
    if l.toPeer != [] {
      AcksSnoc(l.fromPeer, Ack);
      assert (l.fromPeer + [Ack])[..|l.fromPeer|] == l.fromPeer;
      assert l.toPeer[0] in l.toPeer && forall v :: v in l.toPeer[1..] ==> v in l.toPeer;
    }
  }

  lemma OpensFair(l: Link, count: nat)
    requires Fair(l)
    ensures Fair(Take(l, PeerOpens(count)))
  {
    if count < l.limit {
      var f := Opening(l.limit, count);
      AcksSnoc(l.fromPeer, f);
      assert (l.fromPeer + [f])[..|l.fromPeer|] == l.fromPeer;
    }
  }

  /** A hypothesis on the two ends: when a stream arrives, the table counts no more
      live ones than the peer had open when it opened it. Without it the peer may be
      refused. */
  predicate Agrees(l: Link, t: Turn) {
    t.Arrives? && l.fromPeer != [] && l.fromPeer[0].Opening? ==> t.live <= l.fromPeer[0].count
  }

  lemma ArrivesFair(l: Link, live: nat)
    requires Fair(l) && Agrees(l, Arrives(live))
    ensures Fair(Take(l, Arrives(live)))
  {
    if l.fromPeer != [] {
      LateOnesTail(l.fromPeer, l.limit);
      assert l.fromPeer[0] in l.fromPeer;
      assert forall f :: f in l.fromPeer[1..] ==> f in l.fromPeer;
    }
  }

  lemma TakeFair(l: Link, t: Turn)
    requires Fair(l) && l.limits.outstanding < U32_LIMIT - 1 && Agrees(l, t)
    ensures Fair(Take(l, t))
  {
    match t
    case BudgetMoves(_) =>
    case PeerReads => ReadsFair(l);
    case PeerOpens(count) => OpensFair(l, count);
    case Arrives(live) => ArrivesFair(l, live);
  }

  /** Fewer SETTINGS are in flight at once than the counter can count, and the two
      ends agree on which streams are open. */
  ghost predicate Regular(l: Link, turns: seq<Turn>)
    decreases |turns|
  {
    turns == [] ||
    (l.limits.outstanding < U32_LIMIT - 1 && Agrees(l, turns[0]) && Regular(Take(l, turns[0]), turns[1..]))
  }

  lemma {:induction false} AlwaysFair(l: Link, turns: seq<Turn>)
    requires Fair(l) && Regular(l, turns)
    ensures Fair(TakeAll(l, turns))
    decreases |turns|
  {
    if turns != [] {
      hide Take, Fair, Agrees;
      TakeFair(l, turns[0]);
      AlwaysFair(Take(l, turns[0]), turns[1..]);
    }
  }

  /** For every interleaving of budget moves, SETTINGS and acknowledgements, what is
      enforced is at least every limit the peer may still be operating under, equals
      what was advertised once nothing is outstanding, and no stream a conforming
      peer opens is refused; all this so long as the first limit sent is not above
      the ceiling. */
  lemma ConformingPeerNeverRefused(initial: U32, ceiling: U32, turns: seq<Turn>)
    requires initial <= ceiling && Regular(Start(initial, ceiling), turns)
    ensures var l := TakeAll(Start(initial, ceiling), turns);
            && !l.refused
            && l.limit <= l.limits.enforced
            && (forall v :: v in l.toPeer ==> v <= l.limits.enforced)
            && (forall f :: f in l.fromPeer && f.Opening? ==> f.limit <= l.limits.enforced)
            && (l.limits.outstanding == 0 ==> l.limits.enforced == l.limits.advertised)
  {
    AlwaysFair(Start(initial, ceiling), turns);
  }

  /** Above the ceiling it is not so: one budget move before the first acknowledgement
      leaves the ceiling enforced against a peer that has been told of more. */
  lemma InitialAboveCeilingCanRefuse(initial: U32, ceiling: U32)
    requires initial > ceiling
    ensures TakeAll(Start(initial, ceiling), [BudgetMoves(ceiling), PeerReads, PeerOpens(ceiling), Arrives(ceiling), Arrives(ceiling)]).refused
  {
    var l0 := Start(initial, ceiling);
    var l1 := Take(l0, BudgetMoves(ceiling));
    assert l1 == Link(Limits(ceiling, ceiling, 2), [initial, ceiling], ceiling, [], false);
    var l2 := Take(l1, PeerReads);
    assert l2 == Link(Limits(ceiling, ceiling, 2), [ceiling], initial, [Ack], false);
    var l3 := Take(l2, PeerOpens(ceiling));
    assert l3 == Link(Limits(ceiling, ceiling, 2), [ceiling], initial, [Ack, Opening(initial, ceiling)], false);
    var l4 := Take(l3, Arrives(ceiling));
    assert l4 == Link(Limits(ceiling, ceiling, 1), [ceiling], initial, [Opening(initial, ceiling)], false);
    var l5 := Take(l4, Arrives(ceiling));
    assert l5.refused;
    var t := [BudgetMoves(ceiling), PeerReads, PeerOpens(ceiling), Arrives(ceiling), Arrives(ceiling)];
    assert t[1..] == [PeerReads, PeerOpens(ceiling), Arrives(ceiling), Arrives(ceiling)] && t[1..][1..] == [PeerOpens(ceiling), Arrives(ceiling), Arrives(ceiling)]
           && t[1..][1..][1..] == [Arrives(ceiling), Arrives(ceiling)] && t[1..][1..][1..][1..] == [Arrives(ceiling)];
    assert TakeAll(l0, t) == TakeAll(l1, t[1..]) == TakeAll(l2, t[1..][1..]) == TakeAll(l3, t[1..][1..][1..])
           == TakeAll(l4, [Arrives(ceiling)]);
    assert [Arrives(ceiling)][1..] == [];
    assert TakeAll(l4, [Arrives(ceiling)]) == TakeAll(l5, []);
  }

  /** Nor when the table still counts a stream the peer has closed: one such, and the
      last stream the peer is allowed is refused. */
  lemma LingeringStreamCanRefuse(limit: U32)
    requires limit > 0
    ensures TakeAll(Start(limit, limit), [PeerOpens(limit - 1), Arrives(limit)]).refused
  {
    var l0 := Start(limit, limit);
    var t := [PeerOpens(limit - 1), Arrives(limit)];
    assert t[1..] == [Arrives(limit)] && t[1..][1..] == [];
    assert TakeAll(l0, t) == TakeAll(Take(l0, t[0]), t[1..]);
    assert TakeAll(Take(l0, t[0]), t[1..]) == Take(Take(l0, t[0]), t[1]);
  }
}
