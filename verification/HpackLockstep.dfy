/** Encoder and decoder over a whole connection: the tables they keep, and the
    header lists that come out.

    The tables need not be equal. Two resizes between blocks empty the encoder
    to the smaller of them while only the last is announced, so the decoder may
    remember entries the encoder has dropped. What holds on every run is that
    the encoder's entries are the newest of the decoder's, which is enough for
    every index the encoder writes to mean the same thing at both ends. */
module HpackLockstep {
  import opened Octets
  import opened HpackPrimitives
  import opened HpackTable
  import opened HpackCodec

  /** The encoder's table is the newest part of the decoder's, under one bound. */
  ghost predicate Tracks(e: Table, d: Table) {
    && e.entries <= d.entries
    && e.max == d.max <= U32_MAX
    && e.Fits()
  }

  /** Strings short enough for their lengths to be written. */
  predicate Sendable(h: Header) {
    |h.name| <= U32_MAX && |h.value| <= U32_MAX
  }

  lemma WireFits(s: Bytes, huffman: bool)
    requires |s| <= U32_MAX
    ensures WireLength(s, huffman) <= U32_MAX
  {
  }

  /** Tables in step stay in step when the same field is added to both. */
  lemma InsertTracks(e: Table, d: Table, f: Field)
    requires Tracks(e, d)
    ensures Tracks(e.Insert(f), d.Insert(f))
  {
    hide EvictTo, SizeOf;
    var target := Saturating(e.max, Cost(f));
    EvictPrefix(e.entries, d.entries, target);
    InsertFits(e, f);
  }

  lemma IndexFits(t: Table, index: nat)
    requires t.Fits() && t.max <= U32_MAX && index <= t.Last()
    ensures index <= U32_MAX
  {
    EntryCount(t.entries);
  }

  lemma ResolvesAlike(e: Table, d: Table, index: nat)
    requires Tracks(e, d) && e.At(index).Some?
    ensures Resolve(d, index) == Ok(e.At(index).value)
  {
    hide StaticEntry;
    PrefixResolves(e, d, index);
  }

  /** What the encoder writes for one field. */
  datatype Shape =
    | Indexed(index: nat)
    | Literal(prefix: nat, high: Octet, index: nat)

  function ShapeOf(t: Table, h: Header): Shape {
    var m := t.Find(h.AsField());
    if h.sensitive then Literal(4, 0x10, if m.NoMatch? then 0 else m.index)
    else
      match m
      case Full(i) => Indexed(i)
      case Name(i) => Literal(6, 0x40, i)
      case NoMatch => Literal(6, 0x40, 0)
  }

  /** A literal's octets: the name's index, the name if that is zero, the value. */
  function LiteralOctets(prefix: nat, high: Octet, index: nat, h: Header, huffman: bool): seq<Octet>
    requires 4 <= prefix <= 7 && high + Mask(prefix) < 256
  {
    EncodeInt(index, prefix, high) +
    ((if index == 0 then EncodeString(h.name, huffman) else []) + EncodeString(h.value, huffman))
  }

  lemma EncodeByShape(t: Table, huffman: bool, h: Header)
    ensures var coded := EncodeOne(t, huffman, h);
            match ShapeOf(t, h)
            case Indexed(i) => coded == Coded(EncodeInt(i, 7, 0x80), t)
            case Literal(prefix, high, i) =>
              && prefix == (if h.sensitive then 4 else 6) && high == (if h.sensitive then 0x10 else 0x40)
              && coded.octets == LiteralOctets(prefix, high, i, h, huffman)
              && coded.table == if h.sensitive then t else t.Insert(h.AsField())
  {
    FindIsBest(t, h.AsField());
    hide EncodeString, StaticEntry, Table.FirstFull, Table.FirstName, Table.Insert;
    var name, value := EncodeString(h.name, huffman), EncodeString(h.value, huffman);
    assert EncodeInt(0, 4, 0x10) == [0x10];
    assert EncodeInt(0, 6, 0x40) == [0x40];
    hide EncodeInt;
    var m := t.Find(h.AsField());
    if m.NoMatch? {
      var first: Octet := if h.sensitive then 0x10 else 0x40;
      assert [first] + name + value == [first] + (name + value);
    } else {
      assert [] + value == value;
    }
  }

  /** The index in a literal names the field, or is zero. */
  lemma ShapeIsRight(t: Table, h: Header)
    ensures match ShapeOf(t, h)
            case Indexed(i) => 1 <= i <= t.Last() && t.At(i) == Some(h.AsField()) && !h.sensitive
            case Literal(_, _, i) => i == 0 || (i <= t.Last() && NamedAt(t, h.name, i))
  {
    FindIsBest(t, h.AsField());
  }

  lemma LeadingBits(value: nat, prefix: nat, high: Octet)
    requires 4 <= prefix <= 7 && high + Mask(prefix) < 256
    ensures high <= EncodeInt(value, prefix, high)[0] <= high + Mask(prefix)
  {
  }

  /** A literal decodes to its field. */
  lemma LiteralDecodes(e: Table, d: Table, prefix: nat, high: Octet, index: nat, h: Header, huffman: bool, rest: seq<Octet>)
    requires Tracks(e, d) && Sendable(h)
    requires (prefix, high) in {(4, 0x10), (6, 0x40)}
    requires index == 0 || (index <= e.Last() && NamedAt(e, h.name, index))
    ensures var input := LiteralOctets(prefix, high, index, h, huffman) + rest;
            DecodeLiteral(d, input[0], prefix, h.sensitive, input[1..]) == Ok(Parsed(h, rest))
  {
    hide EncodeString, DecodeString, EncodeInt, DecodeInt, StaticEntry, WireLength, Resolve;
    var name := if index == 0 then EncodeString(h.name, huffman) else [];
    var value := EncodeString(h.value, huffman);
    var octets0 := EncodeInt(index, prefix, high);
    var input := LiteralOctets(prefix, high, index, h, huffman) + rest;
    assert input == octets0 + (name + (value + rest));
    assert input[0] == octets0[0] && input[1..] == octets0[1..] + (name + (value + rest));
    IndexFits(e, if index <= e.Last() then index else 0);
    IntRoundTrip(index, prefix, high, name + (value + rest));
    WireFits(h.name, huffman);
    WireFits(h.value, huffman);
    StringRoundTrip(h.name, huffman, value + rest);
    StringRoundTrip(h.value, huffman, rest);
    if index == 0 {
      assert DecodeName(d, input[0], prefix, input[1..]) == Ok(Parsed(h.name, value + rest));
    } else {
      assert name + (value + rest) == value + rest;
      ResolvesAlike(e, d, index);
      assert DecodeName(d, input[0], prefix, input[1..]) == Ok(Parsed(h.name, value + rest));
    }
  }

  /** One field, one table to the other: the decoder reads back exactly the field
      and the tables stay in step. */
  lemma FieldDecodes(e: Table, d: Table, huffman: bool, h: Header, capacity: nat, mayResize: bool, rest: seq<Octet>)
    requires Tracks(e, d) && Sendable(h)
    ensures var coded := EncodeOne(e, huffman, h);
            var input := coded.octets + rest;
            && input != []
            && exists indexed :: DecodeItem(d, capacity, mayResize, input) == Ok(Parsed(Line(h, indexed), rest)) &&
                 Tracks(coded.table, ApplyItem(d, Line(h, indexed)))
  {
    hide EncodeString, DecodeString, DecodeInt, StaticEntry, EvictTo, SizeOf, DecodeLiteral,
         Table.Find, Table.At, Table.Insert, Resolve, LiteralOctets;
    var coded := EncodeOne(e, huffman, h);
    var input := coded.octets + rest;
    EncodeByShape(e, huffman, h);
    ShapeIsRight(e, h);
    match ShapeOf(e, h)
    case Indexed(i) =>
      var octets0 := EncodeInt(i, 7, 0x80);
      assert input[0] == octets0[0] && input[1..] == octets0[1..] + rest;
      LeadingBits(i, 7, 0x80);
      IndexFits(e, i);
      IntRoundTrip(i, 7, 0x80, rest);
      ResolvesAlike(e, d, i);
      assert DecodeItem(d, capacity, mayResize, input) == Ok(Parsed(Line(h, false), rest));
      assert Tracks(coded.table, ApplyItem(d, Line(h, false)));
    case Literal(prefix, high, i) =>
      LeadingBits(i, prefix, high);
      LiteralHead(prefix, high, i, h, huffman, rest);
      LiteralDecodes(e, d, prefix, high, i, h, huffman, rest);
      InsertTracks(e, d, h.AsField());
      assert DecodeItem(d, capacity, mayResize, input) == Ok(Parsed(Line(h, !h.sensitive), rest));
      assert Tracks(coded.table, ApplyItem(d, Line(h, !h.sensitive)));
  }

  lemma LiteralHead(prefix: nat, high: Octet, index: nat, h: Header, huffman: bool, rest: seq<Octet>)
    requires 4 <= prefix <= 7 && high + Mask(prefix) < 256
    ensures var input := LiteralOctets(prefix, high, index, h, huffman) + rest;
            input != [] && input[0] == EncodeInt(index, prefix, high)[0]
  {
  }

  predicate AllSendable(headers: seq<Header>) {
    forall h :: h in headers ==> Sendable(h)
  }

  /** The fields of a block, all of them. */
  lemma {:induction false} FieldsDecode(e: Table, d: Table, huffman: bool, headers: seq<Header>, capacity: nat, mayResize: bool)
    requires Tracks(e, d) && AllSendable(headers)
    ensures var coded := EncodeAll(e, huffman, headers);
            var o := DecodeFrom(d, capacity, mayResize, coded.octets);
            o.headers == headers && o.fault == None && Tracks(coded.table, o.table)
    decreases |headers|
  {
    if headers != [] {
      hide EncodeOne, DecodeItem, ApplyItem, Tracks;
      var h := headers[0];
      var one := EncodeOne(e, huffman, h);
      var more := EncodeAll(one.table, huffman, headers[1..]);
      FieldDecodes(e, d, huffman, h, capacity, mayResize, more.octets);
      var indexed :| DecodeItem(d, capacity, mayResize, one.octets + more.octets) == Ok(Parsed(Line(h, indexed), more.octets)) &&
                     Tracks(one.table, ApplyItem(d, Line(h, indexed)));
      FieldsDecode(one.table, ApplyItem(d, Line(h, indexed)), huffman, headers[1..], capacity, false);
      assert headers == [h] + headers[1..];
    }
  }

  // -------------------------------------------------------------------------
  // Between blocks.
  // -------------------------------------------------------------------------

  /** The two ends between blocks: in step but for the size update still owed. */
  ghost predicate InStep(e: EncoderState, d: Table, capacity: nat) {
    && e.table.entries <= d.entries
    && e.table.Fits()
    && e.table.max <= capacity <= U32_MAX
    && match e.pending
       case None => e.table.max == d.max
       case Some(size) => e.table.max == size
  }

  lemma ResizeKeepsStep(e: EncoderState, d: Table, capacity: nat, size: nat)
    requires InStep(e, d, capacity) && size <= capacity
    ensures InStep(e.SetMax(size), d, capacity)
  {
  }

  /** The table the decoder has once it has read the owed update. */
  function Updated(e: EncoderState, d: Table): Table {
    if e.pending.Some? then d.Resize(e.pending.value) else d
  }

  lemma {:induction false} AnnounceDecodes(e: EncoderState, d: Table, capacity: nat, rest: seq<Octet>)
    requires InStep(e, d, capacity)
    ensures Tracks(e.table, Updated(e, d))
    ensures DecodeFrom(d, capacity, true, e.Announce() + rest) == DecodeFrom(Updated(e, d), capacity, true, rest)
  {
    hide EvictTo, SizeOf;
    if e.pending.Some? {
      var size := e.pending.value;
      hide DecodeInt;
      EvictIsLongest(d.entries, size, e.table.entries);
      var octets0 := EncodeInt(size, 5, 0x20);
      LeadingBits(size, 5, 0x20);
      IntRoundTrip(size, 5, 0x20, rest);
      hide EncodeInt, DecodeLiteral, Resolve;
      var input := octets0 + rest;
      assert input[0] == octets0[0] && input[1..] == octets0[1..] + rest;
      assert DecodeItem(d, capacity, true, input) == Ok(Parsed(SizeUpdate(size), rest));
      DecodeTurn(d, capacity, true, input, []);
      assert [] + DecodeFrom(d, capacity, true, input).headers == DecodeFrom(d, capacity, true, input).headers;
      assert [] + DecodeFrom(Updated(e, d), capacity, true, rest).headers == DecodeFrom(Updated(e, d), capacity, true, rest).headers;
    } else {
      assert e.Announce() + rest == rest;
    }
  }

  /** A whole block: the decoder reads back exactly the list encoded, and the two
      ends are in step again with nothing owed. */
  lemma {:induction false} BlockDecodes(e: EncoderState, d: Table, capacity: nat, headers: seq<Header>)
    requires InStep(e, d, capacity) && AllSendable(headers)
    ensures var o := DecodeFrom(d, capacity, true, e.Block(headers));
            o.headers == headers && o.fault == None && InStep(e.After(headers), o.table, capacity)
  {
    hide EncodeAll, DecodeFrom;
    AnnounceDecodes(e, d, capacity, EncodeAll(e.table, e.huffman, headers).octets);
    FieldsDecode(e.table, Updated(e, d), e.huffman, headers, capacity, true);
    AllMax(e.table, e.huffman, headers);
  }

  /** Adding fields never moves a table's bound. */
  lemma {:induction false} AllMax(t: Table, huffman: bool, headers: seq<Header>)
    ensures EncodeAll(t, huffman, headers).table.max == t.max
    decreases |headers|
  {
    if headers != [] {
      hide EncodeString, EncodeInt, Table.Find, EvictTo, SizeOf;
      AllMax(EncodeOne(t, huffman, headers[0]).table, huffman, headers[1..]);
    }
  }

  // -------------------------------------------------------------------------
  // Whole runs.
  // -------------------------------------------------------------------------

  datatype Op = SetMaxTableSize(size: nat) | SendBlock(headers: seq<Header>)

  /** What the peer may ask for: table sizes it can itself hold, and lists whose
      strings can be written. */
  predicate Legal(ops: seq<Op>, capacity: nat) {
    forall op :: op in ops ==>
      match op
      case SetMaxTableSize(size) => size <= capacity
      case SendBlock(headers) => AllSendable(headers)
  }

  function Sent(ops: seq<Op>): seq<seq<Header>>
    decreases |ops|
  {
    if ops == [] then []
    else (if ops[0].SendBlock? then [ops[0].headers] else []) + Sent(ops[1..])
  }

  /** Run the operations with each block decoded as it arrives; the decoder's
      answers in order, and where both ends stand afterwards. */
  datatype Run = Run(answers: seq<Result<seq<Header>, HpackError>>, encoder: EncoderState, decoder: Table)

  ghost function RunOps(e: EncoderState, d: Table, capacity: nat, ops: seq<Op>): Run
    decreases |ops|
  {
    if ops == [] then Run([], e, d)
    else
      match ops[0]
      case SetMaxTableSize(size) => RunOps(e.SetMax(size), d, capacity, ops[1..])
      case SendBlock(headers) =>
        var o := DecodeFrom(d, capacity, true, e.Block(headers));
        var more := RunOps(e.After(headers), o.table, capacity, ops[1..]);
        more.(answers := [Verdict(o, None)] + more.answers)
  }

  function AllOk(lists: seq<seq<Header>>): seq<Result<seq<Header>, HpackError>> {
    if lists == [] then [] else [Ok(lists[0])] + AllOk(lists[1..])
  }

  /** Over any interleaving of blocks and resizes, every block decodes to exactly
      the list it was encoded from, and the ends stay in step. */
  lemma {:induction false} Lockstep(e: EncoderState, d: Table, capacity: nat, ops: seq<Op>)
    requires InStep(e, d, capacity) && Legal(ops, capacity)
    ensures var run := RunOps(e, d, capacity, ops);
            run.answers == AllOk(Sent(ops)) && InStep(run.encoder, run.decoder, capacity)
    decreases |ops|
  {
    if ops != [] {
      hide InStep, AllSendable;
      assert ops[0] in ops;
      assert Legal(ops[1..], capacity) by {
        forall op | op in ops[1..] ensures op in ops { }
      }
      match ops[0]
      case SetMaxTableSize(size) =>
        ResizeKeepsStep(e, d, capacity, size);
        Lockstep(e.SetMax(size), d, capacity, ops[1..]);
        assert [] + Sent(ops[1..]) == Sent(ops[1..]);
      case SendBlock(headers) =>
        var o := DecodeFrom(d, capacity, true, e.Block(headers));
        BlockDecodes(e, d, capacity, headers);
        Lockstep(e.After(headers), o.table, capacity, ops[1..]);
        assert ([headers] + Sent(ops[1..]))[1..] == Sent(ops[1..]);
    }
  }

  // -------------------------------------------------------------------------
  // When the tables are equal.
  // -------------------------------------------------------------------------

  function ResizeAll(e: EncoderState, sizes: seq<nat>): EncoderState
    decreases |sizes|
  {
    if sizes == [] then e else ResizeAll(e.SetMax(sizes[0]), sizes[1..])
  }

  function Smallest(bound: nat, sizes: seq<nat>): nat
    decreases |sizes|
  {
    if sizes == [] then bound else Smallest(Min(bound, sizes[0]), sizes[1..])
  }

  function LastOf(bound: nat, sizes: seq<nat>): nat {
    if sizes == [] then bound else sizes[|sizes| - 1]
  }

  /** Resizes cut the encoder's table to the smallest of them and leave it bound
      by the last. */
  lemma {:induction false} ResizeAllKeepsSmallest(e: EncoderState, sizes: seq<nat>)
    requires e.table.Fits()
    ensures ResizeAll(e, sizes).table ==
            Table(EvictTo(e.table.entries, Smallest(e.table.max, sizes)), LastOf(e.table.max, sizes))
    decreases |sizes|
  {
    hide SizeOf;
    EvictNothing(e.table.entries, e.table.max);
    if sizes != [] {
      var next := e.SetMax(sizes[0]);
      EvictNothing(e.table.entries, sizes[0]);
      assert next.table == Table(EvictTo(e.table.entries, sizes[0]), sizes[0]);
      ResizeAllKeepsSmallest(next, sizes[1..]);
      EvictTwice(e.table.entries, sizes[0], Smallest(sizes[0], sizes[1..]));
      SmallestIsBelow(sizes[0], sizes[1..]);
      SmallestOfMin(e.table.max, sizes[0], sizes[1..]);
      EvictBelowBound(e.table, Smallest(sizes[0], sizes[1..]));
    }
  }

  lemma {:induction false} SmallestIsBelow(bound: nat, sizes: seq<nat>)
    ensures Smallest(bound, sizes) <= bound
    decreases |sizes|
  {
    if sizes != [] {
      SmallestIsBelow(Min(bound, sizes[0]), sizes[1..]);
    }
  }

  lemma {:induction false} SmallestOfMin(a: nat, b: nat, sizes: seq<nat>)
    ensures Smallest(Min(a, b), sizes) == Min(a, Smallest(b, sizes))
    decreases |sizes|
  {
    if sizes != [] {
      SmallestOfMin(a, Min(b, sizes[0]), sizes[1..]);
      assert Min(Min(a, b), sizes[0]) == Min(a, Min(b, sizes[0]));
    }
  }

  lemma EvictBelowBound(t: Table, target: nat)
    requires t.Fits()
    ensures EvictTo(t.entries, Min(t.max, target)) == EvictTo(t.entries, target)
  {
    if target > t.max {
      EvictNothing(t.entries, t.max);
      EvictNothing(t.entries, target);
    }
  }

  lemma {:induction false} PendingAfter(e: EncoderState, sizes: seq<nat>)
    requires e.pending.Some? ==> e.pending.value == e.table.max
    ensures var r := ResizeAll(e, sizes);
            && (r.pending.Some? ==> r.pending.value == r.table.max)
            && (r.pending == None ==> e.pending == None && r.table == e.table)
    decreases |sizes|
  {
    if sizes != [] {
      PendingAfter(e.SetMax(sizes[0]), sizes[1..]);
    }
  }

  /** From equal tables, any resizes: once the announced size has been read the
      tables are equal again exactly when what the decoder kept fits in the
      smallest size asked for. */
  lemma {:induction false} EqualAfterResizes(e: EncoderState, d: Table, sizes: seq<nat>)
    requires e.table == d && e.pending == None && d.Fits()
    ensures var r := ResizeAll(e, sizes);
            r.table == Updated(r, d) <==> SizeOf(Updated(r, d).entries) <= Smallest(d.max, sizes)
  {
    hide SizeOf, EvictTo;
    var r := ResizeAll(e, sizes);
    var smallest, last := Smallest(d.max, sizes), LastOf(d.max, sizes);
    ResizeAllKeepsSmallest(e, sizes);
    PendingAfter(e, sizes);
    EvictNothing(d.entries, d.max);
    SmallestBelowLast(d.max, sizes);
    if r.pending == None {
      assert r.table == d == Updated(r, d);
      EvictNothing(d.entries, smallest);
    } else {
      var kept := Updated(r, d);
      assert kept == Table(EvictTo(d.entries, last), last);
      EvictTwice(d.entries, last, smallest);
      EvictNothing(kept.entries, smallest);
    }
  }

  lemma {:induction false} SmallestBelowLast(bound: nat, sizes: seq<nat>)
    ensures Smallest(bound, sizes) <= LastOf(bound, sizes)
    decreases |sizes|
  {
    if sizes != [] {
      SmallestBelowLast(Min(bound, sizes[0]), sizes[1..]);
      SmallestIsBelow(Min(bound, sizes[0]), sizes[1..]);
    }
  }

  /** In particular one resize between blocks never parts them. */
  lemma OneResizeKeepsEqual(e: EncoderState, d: Table, size: nat)
    requires e.table == d && e.pending == None && d.Fits()
    ensures var r := e.SetMax(size); r.table == Updated(r, d)
  {
    EvictNothing(d.entries, size);
  }

  /** Equal tables stay equal through the fields of a block. */
  lemma {:induction false} FieldsKeepEqual(t: Table, huffman: bool, headers: seq<Header>, capacity: nat, mayResize: bool)
    requires t.Fits() && t.max <= U32_MAX && AllSendable(headers)
    ensures var coded := EncodeAll(t, huffman, headers);
            DecodeFrom(t, capacity, mayResize, coded.octets).table == coded.table
    decreases |headers|
  {
    if headers != [] {
      hide DecodeItem, EvictTo, SizeOf, EncodeString, EncodeInt, Table.Find, Table.At;
      var h := headers[0];
      var one := EncodeOne(t, huffman, h);
      var more := EncodeAll(one.table, huffman, headers[1..]);
      FieldStep(t, huffman, h, capacity, mayResize, more.octets);
      InsertFits(t, h.AsField());
      FieldsKeepEqual(one.table, huffman, headers[1..], capacity, false);
    }
  }

  lemma FieldStep(t: Table, huffman: bool, h: Header, capacity: nat, mayResize: bool, rest: seq<Octet>)
    requires t.Fits() && t.max <= U32_MAX && Sendable(h)
    ensures var coded := EncodeOne(t, huffman, h);
            var input := coded.octets + rest;
            && input != []
            && DecodeItem(t, capacity, mayResize, input).Ok?
            && var p := DecodeItem(t, capacity, mayResize, input).value;
               p.value.Line? && p.rest == rest && ApplyItem(t, p.value) == coded.table
  {
    FieldDecodes(t, t, huffman, h, capacity, mayResize, rest);
  }

  /** A block after any resizes: equal tables stay equal when what the decoder
      kept fits in the smallest size asked for. */
  lemma {:induction false} BlockKeepsEqual(e: EncoderState, d: Table, sizes: seq<nat>, headers: seq<Header>, capacity: nat)
    requires e.table == d && e.pending == None && d.Fits() && d.max <= capacity <= U32_MAX
    requires (forall size :: size in sizes ==> size <= capacity) && AllSendable(headers)
    requires SizeOf(Updated(ResizeAll(e, sizes), d).entries) <= Smallest(d.max, sizes)
    ensures var r := ResizeAll(e, sizes);
            DecodeFrom(d, capacity, true, r.Block(headers)).table == r.After(headers).table
  {
    hide EncodeAll, DecodeFrom, SizeOf, EvictTo;
    var r := ResizeAll(e, sizes);
    EqualAfterResizes(e, d, sizes);
    ResizesKeepStep(e, d, capacity, sizes);
    AnnounceDecodes(r, d, capacity, EncodeAll(r.table, r.huffman, headers).octets);
    FieldsKeepEqual(r.table, r.huffman, headers, capacity, true);
  }

  /** At most one resize since the last block. */
  predicate Spaced(ops: seq<Op>, free: bool)
    decreases |ops|
  {
    ops == [] || (if ops[0].SendBlock? then Spaced(ops[1..], true) else free && Spaced(ops[1..], false))
  }

  /** The two tables are equal after every block. */
  ghost predicate EqualAfterBlocks(e: EncoderState, d: Table, capacity: nat, ops: seq<Op>)
    decreases |ops|
  {
    ops == [] ||
    match ops[0]
    case SetMaxTableSize(size) => EqualAfterBlocks(e.SetMax(size), d, capacity, ops[1..])
    case SendBlock(headers) =>
      var o := DecodeFrom(d, capacity, true, e.Block(headers));
      o.table == e.After(headers).table && EqualAfterBlocks(e.After(headers), o.table, capacity, ops[1..])
  }

  /** Over any run with at most one resize between any two blocks, the tables are
      equal after every block. */
  lemma {:induction false} SpacedStaysEqual(e: EncoderState, d: Table, capacity: nat, ops: seq<Op>, free: bool)
    requires InStep(e, d, capacity) && d.Fits() && Legal(ops, capacity) && Spaced(ops, free)
    requires e.table == Updated(e, d) && (free ==> e.pending == None)
    ensures EqualAfterBlocks(e, d, capacity, ops)
    decreases |ops|
  {
    if ops != [] {
      hide AllSendable, DecodeFrom, EncodeAll, EvictTo, SizeOf;
      assert ops[0] in ops;
      assert Legal(ops[1..], capacity) by {
        forall op | op in ops[1..] ensures op in ops { }
      }
      match ops[0]
      case SetMaxTableSize(size) =>
        OneResizeKeepsEqual(e, d, size);
        ResizeKeepsStep(e, d, capacity, size);
        SpacedStaysEqual(e.SetMax(size), d, capacity, ops[1..], false);
      case SendBlock(headers) =>
        BlockDecodes(e, d, capacity, headers);
        AnnounceDecodes(e, d, capacity, EncodeAll(e.table, e.huffman, headers).octets);
        FieldsKeepEqual(e.table, e.huffman, headers, capacity, true);
        SpacedStaysEqual(e.After(headers), DecodeFrom(d, capacity, true, e.Block(headers)).table, capacity, ops[1..], true);
    }
  }

  lemma {:induction false} ResizesKeepStep(e: EncoderState, d: Table, capacity: nat, sizes: seq<nat>)
    requires InStep(e, d, capacity) && forall size :: size in sizes ==> size <= capacity
    ensures InStep(ResizeAll(e, sizes), d, capacity)
    decreases |sizes|
  {
    if sizes != [] {
      assert sizes[0] in sizes;
      assert forall size :: size in sizes[1..] ==> size in sizes;
      ResizeKeepsStep(e, d, capacity, sizes[0]);
      ResizesKeepStep(e.SetMax(sizes[0]), d, capacity, sizes[1..]);
    }
  }

  /** Two resizes can part the tables: shrinking to nothing and back empties only
      the encoder's. */
  lemma TwoResizesCanPart()
    ensures var f := Field([0x61], [0x62]);
            var t := Table([f], 4096);
            var e := EncoderState(t, None, true);
            var r := ResizeAll(e, [0, 4096]);
            InStep(e, t, 4096) && r.table.entries == [] && Updated(r, t).entries == [f]
  {
    var f := Field([0x61], [0x62]);
    var t := Table([f], 4096);
    var e := EncoderState(t, None, true);
    assert [f][..0] == [];
    assert SizeOf([f]) == 34;
    EvictNothing([f], 4096);
    assert EvictTo([f], 0) == [];
    var once := e.SetMax(0);
    assert once == EncoderState(Table([], 0), Some(0), true);
    var twice := once.SetMax(4096);
    assert twice == EncoderState(Table([], 4096), Some(4096), true);
    assert [0, 4096][1..] == [4096] && [4096][1..] == [];
    assert ResizeAll(e, [0, 4096]) == ResizeAll(once, [4096]) == ResizeAll(twice, []) == twice;
  }
}
