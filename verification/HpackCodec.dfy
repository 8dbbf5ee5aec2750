/** The HPACK decoder and encoder (RFC 7541 sections 3 and 6): what a block means
    as a function of the table it meets, and the two classes that carry the
    tables from block to block. */
module HpackCodec {
  import opened Octets
  import opened HpackPrimitives
  import opened HpackTable

  /** A header field; `sensitive` marks one that must never be indexed. */
  datatype Header = Header(name: Bytes, value: Bytes, sensitive: bool) {
    function AsField(): Field {
      Field(name, value)
    }
  }

  datatype HpackError =
    | Compression(fault: Fault)
    | HeaderListTooLarge(size: nat, limit: nat)

  function ListSize(headers: seq<Header>): nat {
    if headers == [] then 0
    else ListSize(headers[..|headers| - 1]) + Cost(headers[|headers| - 1].AsField())
  }

  // -------------------------------------------------------------------------
  // What a block means.
  // -------------------------------------------------------------------------

  /** One representation: a table size update, or a field and whether it is added
      to the table. */
  datatype Item =
    | SizeUpdate(size: nat)
    | Line(header: Header, indexed: bool)

  function ApplyItem(t: Table, item: Item): Table {
    match item
    case SizeUpdate(size) => t.Resize(size)
    case Line(h, indexed) => if indexed then t.Insert(h.AsField()) else t
  }

  function Resolve(t: Table, index: nat): Result<Field, Fault> {
    match t.At(index)
    case Some(f) => Ok(f)
    case None => Err(if index == 0 then IndexZero else IndexPastEnd)
  }

  /** A literal's name: by index, or spelled out when the index is zero. */
  ghost function DecodeName(t: Table, first: Octet, prefix: nat, input: seq<Octet>): Parse<Bytes>
    requires 4 <= prefix <= 7
  {
    match DecodeInt(first, prefix, input)
    case Err(e) => Err(e)
    case Ok(Parsed(index, rest)) =>
      if index == 0 then DecodeString(rest)
      else
        match Resolve(t, index) {
          case Err(e) => Err(e)
          case Ok(f) => Ok(Parsed(f.name, rest))
        }
  }

  ghost function DecodeLiteral(t: Table, first: Octet, prefix: nat, sensitive: bool, input: seq<Octet>): Parse<Header>
    requires 4 <= prefix <= 7
  {
    match DecodeName(t, first, prefix, input)
    case Err(e) => Err(e)
    case Ok(Parsed(name, rest)) =>
      match DecodeString(rest)
      case Err(e) => Err(e)
      case Ok(Parsed(value, rest')) => Ok(Parsed(Header(name, value, sensitive), rest'))
  }

  ghost function AsLine(p: Parse<Header>, indexed: bool): Parse<Item> {
    match p
    case Err(e) => Err(e)
    case Ok(Parsed(h, rest)) => Ok(Parsed(Line(h, indexed), rest))
  }

  /** The five representations, told apart by the leading bits of the first octet. */
  ghost function DecodeItem(t: Table, capacity: nat, mayResize: bool, input: seq<Octet>): Parse<Item>
    requires input != []
  {
    var first, rest := input[0], input[1..];
    if first >= 0x80 then
      match DecodeInt(first, 7, rest) {
        case Err(e) => Err(e)
        case Ok(Parsed(index, rest')) =>
          match Resolve(t, index) {
            case Err(e) => Err(e)
            case Ok(f) => Ok(Parsed(Line(Header(f.name, f.value, false), false), rest'))
          }
      }
    else if first >= 0x40 then AsLine(DecodeLiteral(t, first, 6, false, rest), true)
    else if first >= 0x20 then
      if !mayResize then Err(LateSizeUpdate)
      else
        match DecodeInt(first, 5, rest) {
          case Err(e) => Err(e)
          case Ok(Parsed(size, rest')) =>
            if size > capacity then Err(SizeUpdateTooLarge) else Ok(Parsed(SizeUpdate(size), rest'))
        }
    else AsLine(DecodeLiteral(t, first, 4, first >= 0x10, rest), false)
  }

  lemma LiteralShrinks(t: Table, first: Octet, prefix: nat, sensitive: bool, input: seq<Octet>)
    requires 4 <= prefix <= 7
    ensures DecodeLiteral(t, first, prefix, sensitive, input).Ok? ==>
              |DecodeLiteral(t, first, prefix, sensitive, input).value.rest| < |input|
  {
    hide DecodeString, DecodeInt, Resolve;
    IntInRange(first, prefix, input);
    if DecodeInt(first, prefix, input).Ok? {
      StringShrinks(DecodeInt(first, prefix, input).value.rest);
    }
    if DecodeName(t, first, prefix, input).Ok? {
      StringShrinks(DecodeName(t, first, prefix, input).value.rest);
    }
  }

  lemma ItemShrinks(t: Table, capacity: nat, mayResize: bool, input: seq<Octet>)
    requires input != []
    ensures DecodeItem(t, capacity, mayResize, input).Ok? ==>
              |DecodeItem(t, capacity, mayResize, input).value.rest| < |input|
  {
    hide DecodeLiteral, DecodeInt, Resolve;
    var first, rest := input[0], input[1..];
    IntInRange(first, 7, rest);
    IntInRange(first, 5, rest);
    LiteralShrinks(t, first, 6, false, rest);
    LiteralShrinks(t, first, 4, first >= 0x10, rest);
  }

  /** The fields a block carries, the table it leaves behind, and the fault that
      stopped it, if one did. */
  datatype Outcome = Outcome(headers: seq<Header>, table: Table, fault: Option<Fault>)

  ghost function DecodeFrom(t: Table, capacity: nat, mayResize: bool, input: seq<Octet>): Outcome
    decreases |input|
  {
    if input == [] then Outcome([], t, None)
    else
      ItemShrinks(t, capacity, mayResize, input);
      match DecodeItem(t, capacity, mayResize, input)
      case Err(e) => Outcome([], t, Some(e))
      case Ok(Parsed(item, rest)) =>
        var next := DecodeFrom(ApplyItem(t, item), capacity, mayResize && item.SizeUpdate?, rest);
        if item.SizeUpdate? then next else next.(headers := [item.header] + next.headers)
  }

  /** An outcome with fields already read in front of it. */
  function Preceded(all: seq<Header>, o: Outcome): Outcome {
    o.(headers := all + o.headers)
  }

  /** One turn of the decoding loop. */
  lemma DecodeTurn(t: Table, capacity: nat, mayResize: bool, input: seq<Octet>, all: seq<Header>)
    requires input != []
    ensures var goal := Preceded(all, DecodeFrom(t, capacity, mayResize, input));
            match DecodeItem(t, capacity, mayResize, input)
            case Err(e) => goal == Outcome(all, t, Some(e))
            case Ok(Parsed(item, rest)) =>
              |rest| < |input| &&
              goal == Preceded(if item.Line? then all + [item.header] else all,
                               DecodeFrom(ApplyItem(t, item), capacity, mayResize && item.SizeUpdate?, rest))
  {
    hide DecodeItem, ApplyItem;
    ItemShrinks(t, capacity, mayResize, input);
    match DecodeItem(t, capacity, mayResize, input)
    case Err(e) =>
      assert all + [] == all;
    case Ok(Parsed(item, rest)) =>
      var next := DecodeFrom(ApplyItem(t, item), capacity, mayResize && item.SizeUpdate?, rest);
      if item.Line? {
        assert (all + [item.header]) + next.headers == all + ([item.header] + next.headers);
      }
  }

  /** The same turn, told by what reading one representation delivered. */
  lemma TurnDelivered(t: Table, capacity: nat, mayResize: bool, input: seq<Octet>, all: seq<Header>,
                      r: Result<Item, Fault>, rest: seq<Octet>)
    requires input != [] && Delivers(r, rest, DecodeItem(t, capacity, mayResize, input))
    ensures var goal := Preceded(all, DecodeFrom(t, capacity, mayResize, input));
            match r
            case Err(e) => goal == Outcome(all, t, Some(e))
            case Ok(item) =>
              |rest| < |input| &&
              goal == Preceded(if item.Line? then all + [item.header] else all,
                               DecodeFrom(ApplyItem(t, item), capacity, mayResize && item.SizeUpdate?, rest))
  {
    hide DecodeItem, ApplyItem, DecodeFrom, Preceded;
    DecodeTurn(t, capacity, mayResize, input, all);
  }

  lemma DecodeDone(t: Table, capacity: nat, mayResize: bool, all: seq<Header>)
    ensures Preceded(all, DecodeFrom(t, capacity, mayResize, [])) == Outcome(all, t, None)
  {
    assert all + [] == all;
  }

  /** A compression fault outranks an oversized list, and an oversized list is
      reported only once the whole block has been read. */
  function Verdict(o: Outcome, limit: Option<nat>): Result<seq<Header>, HpackError> {
    if o.fault.Some? then Err(Compression(o.fault.value))
    else if limit.Some? && ListSize(o.headers) > limit.value then
      Err(HeaderListTooLarge(ListSize(o.headers), limit.value))
    else Ok(o.headers)
  }

  lemma PrecededByNothing(o: Outcome)
    ensures Preceded([], o) == o
  {
    assert [] + o.headers == o.headers;
  }

  lemma FaultVerdict(o: Outcome, limit: Option<nat>)
    ensures o.fault.Some? ==> Verdict(o, limit) == Err(Compression(o.fault.value))
  {
  }

  lemma CleanVerdict(o: Outcome, limit: Option<nat>)
    ensures o.fault == None ==>
              Verdict(o, limit) == if limit.Some? && ListSize(o.headers) > limit.value then
                                     Err(HeaderListTooLarge(ListSize(o.headers), limit.value))
                                   else Ok(o.headers)
  {
  }

  lemma {:induction false} ListSizeConcat(a: seq<Header>, b: seq<Header>)
    ensures ListSize(a + b) == ListSize(a) + ListSize(b)
  {
    if b == [] {
      assert a + b == a;
    } else {
      assert (a + b)[..|a + b| - 1] == a + b[..|b| - 1];
      ListSizeConcat(a, b[..|b| - 1]);
    }
  }

  /** What a decoder under a list limit has kept: past the limit it keeps no more
      headers, but goes on counting. */
  datatype Gathered = Gathered(headers: seq<Header>, size: nat, over: bool) {
    function With(h: Header, limit: Option<nat>): Gathered {
      var counted := size + Cost(h.AsField());
      if limit.Some? && counted > limit.value then Gathered([], counted, true) else Gathered(headers + [h], counted, over)
    }
  }

  /** A block read under a list limit: the answer, and the table left. */
  datatype Answer = Answer(r: Result<seq<Header>, HpackError>, table: Table)

  ghost function DecodeWithin(t: Table, capacity: nat, limit: Option<nat>, mayResize: bool, input: seq<Octet>, k: Gathered): Answer
    requires k.over ==> limit.Some?
    decreases |input|
  {
    if input == [] then Answer(if k.over then Err(HeaderListTooLarge(k.size, limit.value)) else Ok(k.headers), t)
    else
      ItemShrinks(t, capacity, mayResize, input);
      match DecodeItem(t, capacity, mayResize, input)
      case Err(e) => Answer(Err(Compression(e)), t)
      case Ok(Parsed(item, rest)) =>
        DecodeWithin(ApplyItem(t, item), capacity, limit, mayResize && item.SizeUpdate?, rest,
                     if item.Line? then k.With(item.header, limit) else k)
  }

  /** A block from its start. */
  ghost function DecodeBlock(t: Table, capacity: nat, limit: Option<nat>, block: seq<Octet>): Answer {
    DecodeWithin(t, capacity, limit, true, block, Gathered([], 0, false))
  }

  /** What has been kept, against all that has been read. */
  ghost predicate GatheredFrom(k: Gathered, all: seq<Header>, limit: Option<nat>) {
    && k.size == ListSize(all)
    && (k.over <==> limit.Some? && k.size > limit.value)
    && (!k.over ==> k.headers == all)
  }

  lemma {:induction false} WithinIsVerdict(
    t: Table, capacity: nat, limit: Option<nat>, mayResize: bool, input: seq<Octet>, k: Gathered, all: seq<Header>)
    requires GatheredFrom(k, all, limit)
    ensures var o := Preceded(all, DecodeFrom(t, capacity, mayResize, input));
            DecodeWithin(t, capacity, limit, mayResize, input, k) == Answer(Verdict(o, limit), o.table)
    decreases |input|
  {
    hide DecodeItem, ApplyItem, ListSize, DecodeFrom, Preceded;
    if input == [] {
      DecodeDone(t, capacity, mayResize, all);
    } else {
      DecodeTurn(t, capacity, mayResize, input, all);
      match DecodeItem(t, capacity, mayResize, input)
      case Err(_) =>
      case Ok(Parsed(item, rest)) =>
        if item.Line? {
          ListSizeSnoc(all, item.header);
          WithinIsVerdict(ApplyItem(t, item), capacity, limit, false, rest, k.With(item.header, limit), all + [item.header]);
        } else {
          WithinIsVerdict(ApplyItem(t, item), capacity, limit, mayResize, rest, k, all);
        }
    }
  }

  /** Reading under the limit is reading without it and judging the list at the end. */
  lemma BlockIsVerdict(t: Table, capacity: nat, limit: Option<nat>, block: seq<Octet>)
    ensures var o := DecodeFrom(t, capacity, true, block);
            DecodeBlock(t, capacity, limit, block) == Answer(Verdict(o, limit), o.table)
  {
    hide DecodeFrom, DecodeWithin, Verdict;
    ListSizeEmpty();
    PrecededByNothing(DecodeFrom(t, capacity, true, block));
    WithinIsVerdict(t, capacity, limit, true, block, Gathered([], 0, false), []);
  }

  /** One block read with a list limit and without: the same table is left and the
      same compression fault found; and a block that decodes is turned away exactly
      when its list is larger than the limit. */
  lemma LimitDisturbsNothing(t: Table, capacity: nat, limit: nat, block: seq<Octet>)
    ensures var free := DecodeBlock(t, capacity, None, block);
            var bound := DecodeBlock(t, capacity, Some(limit), block);
            && bound.table == free.table
            && (free.r.Err? ==> bound.r == free.r)
            && (free.r.Ok? ==>
                  bound.r == if ListSize(free.r.value) > limit then Err(HeaderListTooLarge(ListSize(free.r.value), limit))
                             else free.r)
  {
    hide DecodeFrom, DecodeBlock;
    BlockIsVerdict(t, capacity, None, block);
    BlockIsVerdict(t, capacity, Some(limit), block);
  }

  /** The table stays within its own bound and that bound within the capacity. */
  ghost predicate Bounded(t: Table, capacity: nat) {
    t.Fits() && t.max <= capacity
  }

  lemma {:induction false} DecodeStaysBounded(t: Table, capacity: nat, mayResize: bool, input: seq<Octet>)
    requires Bounded(t, capacity)
    ensures Bounded(DecodeFrom(t, capacity, mayResize, input).table, capacity)
    decreases |input|
  {
    if input != [] {
      hide DecodeLiteral, DecodeInt, Resolve, EvictTo, SizeOf;
      ItemShrinks(t, capacity, mayResize, input);
      match DecodeItem(t, capacity, mayResize, input)
      case Err(_) =>
      case Ok(Parsed(item, rest)) =>
        if item.Line? {
          InsertFits(t, item.header.AsField());
        }
        DecodeStaysBounded(ApplyItem(t, item), capacity, mayResize && item.SizeUpdate?, rest);
    }
  }

  // -------------------------------------------------------------------------
  // The decoder as it runs.
  // -------------------------------------------------------------------------

  class HpackDecoder {
    const table: DynamicTable
    const capacity: nat
    const limit: Option<nat>

    constructor (maxTableSize: nat, maxListSize: Option<nat>)
      ensures fresh(table) && table.Valid() && table.Model() == Table([], maxTableSize)
      ensures capacity == maxTableSize && limit == maxListSize
    {
      table := new DynamicTable(maxTableSize);
      capacity := maxTableSize;
      limit := maxListSize;
    }

    /** A literal representation: an optional name index, then the strings. */
    method Literal(first: Octet, prefix: nat, cur: Cursor, sensitive: bool) returns (r: Result<Header, Fault>)
      requires 4 <= prefix <= 7 && cur.Valid()
      modifies cur
      ensures cur.Valid()
      ensures Delivers(r, cur.Rest(), DecodeLiteral(table.Model(), first, prefix, sensitive, old(cur.Rest())))
    {
      hide DecodeInt, DecodeString;
      var index := ReadInt(first, prefix, cur);
      if index.Err? {
        return Err(index.error);
      }
      var name: Bytes;
      if index.value == 0 {
        var spelled := ReadString(cur);
        if spelled.Err? {
          return Err(spelled.error);
        }
        name := spelled.value;
      } else {
        var entry := table.Lookup(index.value);
        if entry == None {
          return Err(IndexPastEnd);
        }
        name := entry.value.name;
      }
      var value := ReadString(cur);
      if value.Err? {
        return Err(value.error);
      }
      r := Ok(Header(name, value.value, sensitive));
    }

    /** Read one representation and apply what it does to the table. */
    method Step(cur: Cursor, mayResize: bool) returns (r: Result<Item, Fault>)
      requires cur.Valid() && cur.Rest() != [] && table.Valid()
      modifies cur, table
      ensures cur.Valid() && table.Valid()
      ensures Delivers(r, cur.Rest(), DecodeItem(old(table.Model()), capacity, mayResize, old(cur.Rest())))
      ensures table.Model() == if r.Ok? then ApplyItem(old(table.Model()), r.value) else old(table.Model())
    {
      hide DecodeInt, DecodeLiteral, EvictTo, SizeOf;
      var octet := cur.NextByte();
      var first := octet.value;
      if first >= 0x80 {
        var index := ReadInt(first, 7, cur);
        if index.Err? {
          return Err(index.error);
        }
        var entry := table.Lookup(index.value);
        if entry == None {
          return Err(if index.value == 0 then IndexZero else IndexPastEnd);
        }
        r := Ok(Line(Header(entry.value.name, entry.value.value, false), false));
      } else if first >= 0x40 {
        var header := Literal(first, 6, cur, false);
        if header.Err? {
          return Err(header.error);
        }
        table.Insert(header.value.name, header.value.value);
        r := Ok(Line(header.value, true));
      } else if first >= 0x20 {
        if !mayResize {
          return Err(LateSizeUpdate);
        }
        var size := ReadInt(first, 5, cur);
        if size.Err? {
          return Err(size.error);
        }
        if size.value > capacity {
          return Err(SizeUpdateTooLarge);
        }
        table.SetMaxSize(size.value);
        r := Ok(SizeUpdate(size.value));
      } else {
        var header := Literal(first, 4, cur, first >= 0x10);
        if header.Err? {
          return Err(header.error);
        }
        r := Ok(Line(header.value, false));
      }
    }

    /** Decode a block. Past the list limit headers are no longer kept, but the
        block is still read to its end, so the table is the one an unlimited
        decoder would have. */
    method Decode(block: seq<Octet>) returns (r: Result<seq<Header>, HpackError>)
      requires table.Valid()
      modifies table
      ensures table.Valid()
      ensures r == Verdict(DecodeFrom(old(table.Model()), capacity, true, block), limit)
      ensures table.Model() == DecodeFrom(old(table.Model()), capacity, true, block).table
    {
      hide DecodeItem, ApplyItem, ListSize, DecodeFrom, EvictTo, SizeOf, Preceded, Verdict, Delivers;
      var cur := new Cursor(block);
      var headers: seq<Header> := [];
      var listSize: nat := 0;
      var oversized := false;
      var mayResize := true;
      ghost var all: seq<Header> := [];
      ghost var goal := DecodeFrom(table.Model(), capacity, true, block);
      ListSizeEmpty();
      PrecededByNothing(goal);
      var empty := cur.IsEmpty();
      while !empty
        invariant cur.Valid() && table.Valid()
        invariant empty <==> cur.Rest() == []
        invariant goal == Preceded(all, DecodeFrom(table.Model(), capacity, mayResize, cur.Rest()))
        invariant listSize == ListSize(all)
        invariant oversized <==> limit.Some? && listSize > limit.value
        invariant !oversized ==> headers == all
        decreases |cur.Rest()|
      {
        ghost var before, input := table.Model(), cur.Rest();
        var item := Step(cur, mayResize);
        TurnDelivered(before, capacity, mayResize, input, all, item, cur.Rest());
        if item.Err? {
          FaultVerdict(goal, limit);
          return Err(Compression(item.error));
        }
        match item.value {
          case SizeUpdate(_) =>
          case Line(header, _) =>
            mayResize := false;
            ListSizeSnoc(all, header);
            all := all + [header];
            listSize := listSize + (|header.name| + |header.value| + ENTRY_OVERHEAD);
            if limit.Some? && listSize > limit.value {
              oversized := true;
              headers := [];
            } else {
              headers := headers + [header];
            }
        }
        empty := cur.IsEmpty();
      }
      DecodeDone(table.Model(), capacity, mayResize, all);
      CleanVerdict(goal, limit);
      r := if oversized then Err(HeaderListTooLarge(listSize, limit.value)) else Ok(headers);
    }
  }

  lemma ListSizeEmpty()
    ensures ListSize([]) == 0
  {
  }

  lemma ListSizeSnoc(headers: seq<Header>, h: Header)
    ensures ListSize(headers + [h]) == ListSize(headers) + |h.name| + |h.value| + ENTRY_OVERHEAD
  {
    assert (headers + [h])[..|headers|] == headers;
  }

  // -------------------------------------------------------------------------
  // What the encoder writes.
  // -------------------------------------------------------------------------

  datatype Coded = Coded(octets: seq<Octet>, table: Table)

  function EncodeOne(t: Table, huffman: bool, h: Header): Coded {
    var name, value := EncodeString(h.name, huffman), EncodeString(h.value, huffman);
    if h.sensitive then
      // A sensitive field reaches neither table.
      match t.Find(h.AsField()) {
        case Full(i) => Coded(EncodeInt(i, 4, 0x10) + value, t)
        case Name(i) => Coded(EncodeInt(i, 4, 0x10) + value, t)
        case NoMatch => Coded([0x10] + name + value, t)
      }
    else
      match t.Find(h.AsField()) {
        case Full(i) => Coded(EncodeInt(i, 7, 0x80), t)
        case Name(i) => Coded(EncodeInt(i, 6, 0x40) + value, t.Insert(h.AsField()))
        case NoMatch => Coded([0x40] + name + value, t.Insert(h.AsField()))
      }
  }

  function EncodeAll(t: Table, huffman: bool, headers: seq<Header>): Coded
    decreases |headers|
  {
    if headers == [] then Coded([], t)
    else
      var one := EncodeOne(t, huffman, headers[0]);
      var more := EncodeAll(one.table, huffman, headers[1..]);
      Coded(one.octets + more.octets, more.table)
  }

  /** An encoder between blocks: its table, and the size update it still owes. */
  datatype EncoderState = EncoderState(table: Table, pending: Option<nat>, huffman: bool) {

    function SetMax(size: nat): EncoderState {
      if size == table.max then this
      else this.(table := table.Resize(size), pending := Some(size))
    }

    function Announce(): seq<Octet> {
      if pending.Some? then EncodeInt(pending.value, 5, 0x20) else []
    }

    function Block(headers: seq<Header>): seq<Octet> {
      Announce() + EncodeAll(table, huffman, headers).octets
    }

    function After(headers: seq<Header>): EncoderState {
      EncoderState(EncodeAll(table, huffman, headers).table, None, huffman)
    }
  }

  // -------------------------------------------------------------------------
  // The encoder as it runs.
  // -------------------------------------------------------------------------

  class HpackEncoder {
    const table: DynamicTable
    var pending: Option<nat>
    var huffman: bool

    ghost predicate Valid()
      reads this, table
    {
      table.Valid()
    }

    ghost function State(): EncoderState
      reads this, table
    {
      EncoderState(table.Model(), pending, huffman)
    }

    constructor (maxTableSize: nat)
      ensures fresh(table) && Valid()
      ensures State() == EncoderState(Table([], maxTableSize), None, true)
    {
      table := new DynamicTable(maxTableSize);
      pending := None;
      huffman := true;
    }

    method SetMaxTableSize(size: nat)
      requires Valid()
      modifies this, table
      ensures Valid()
      ensures State() == old(State()).SetMax(size)
    {
      if size != table.maxSize {
        table.SetMaxSize(size);
        pending := Some(size);
      }
    }

    method EncodeField(h: Header, out: seq<Octet>) returns (r: seq<Octet>)
      requires Valid()
      modifies table
      ensures Valid()
      ensures var coded := EncodeOne(old(table.Model()), huffman, h);
              r == out + coded.octets && table.Model() == coded.table
    {
      hide EncodeInt, EncodeString, EvictTo, SizeOf, Table.Find, Table.Insert;
      var m := table.Find(h.AsField());
      if h.sensitive {
        match m {
          case Full(i) => r := WriteInt(i, 4, 0x10, out);
          case Name(i) => r := WriteInt(i, 4, 0x10, out);
          case NoMatch => r := WriteString(h.name, huffman, out + [0x10]);
        }
        r := WriteString(h.value, huffman, r);
        return;
      }
      match m {
        case Full(i) =>
          r := WriteInt(i, 7, 0x80, out);
        case Name(i) =>
          r := WriteInt(i, 6, 0x40, out);
          r := WriteString(h.value, huffman, r);
          table.Insert(h.name, h.value);
        case NoMatch =>
          r := WriteString(h.name, huffman, out + [0x40]);
          r := WriteString(h.value, huffman, r);
          table.Insert(h.name, h.value);
      }
    }

    method Encode(headers: seq<Header>, out: seq<Octet>) returns (r: seq<Octet>)
      requires Valid()
      modifies this, table
      ensures Valid()
      ensures r == out + old(State()).Block(headers)
      ensures State() == old(State()).After(headers)
    {
      hide EncodeOne, EncodeInt;
      r := out;
      if pending.Some? {
        r := WriteInt(pending.value, 5, 0x20, r);
        pending := None;
      }
      ghost var start, t0 := r, table.Model();
      for i := 0 to |headers|
        invariant Valid() && pending == None && huffman == old(huffman)
        invariant var now := EncodeAll(table.Model(), huffman, headers[i..]);
                  var all := EncodeAll(t0, huffman, headers);
                  r + now.octets == start + all.octets && now.table == all.table
      {
        assert headers[i..][0] == headers[i] && headers[i..][1..] == headers[i + 1..];
        ghost var before, t := r, table.Model();
        r := EncodeField(headers[i], r);
        ghost var one := EncodeOne(t, huffman, headers[i]).octets;
        ghost var more := EncodeAll(table.Model(), huffman, headers[i + 1..]).octets;
        assert (before + one) + more == before + (one + more);
      }
      assert r + [] == r;
      assert start == out + old(State()).Announce();
    }
  }
}
