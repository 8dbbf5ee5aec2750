/** The static table (RFC 7541 Appendix A), the dynamic table, and the index
    space they share (section 2.3.3). */
module HpackTable {
  import opened Octets

  type Bytes = seq<Octet>

  /** A table entry: a name and a value. */
  datatype Field = Field(name: Bytes, value: Bytes)

  const ENTRY_OVERHEAD: nat := 32

  const STATIC_LEN: nat := 61

  function Ascii(s: string): Bytes {
    seq(|s|, i requires 0 <= i < |s| => (s[i] as int) % 256)
  }

  function Static(name: string, value: string): Field {
    Field(Ascii(name), Ascii(value))
  }

  /** The entry at wire index `index`, 1 to 61. */
  function StaticEntry(index: nat): Field {
    match index
    case 1 => Static(":authority", "")
    case 2 => Static(":method", "GET")
    case 3 => Static(":method", "POST")
    case 4 => Static(":path", "/")
    case 5 => Static(":path", "/index.html")
    case 6 => Static(":scheme", "http")
    case 7 => Static(":scheme", "https")
    case 8 => Static(":status", "200")
    case 9 => Static(":status", "204")
    case 10 => Static(":status", "206")
    case 11 => Static(":status", "304")
    case 12 => Static(":status", "400")
    case 13 => Static(":status", "404")
    case 14 => Static(":status", "500")
    case 15 => Static("accept-charset", "")
    case 16 => Static("accept-encoding", "gzip, deflate")
    case 17 => Static("accept-language", "")
    case 18 => Static("accept-ranges", "")
    case 19 => Static("accept", "")
    case 20 => Static("access-control-allow-origin", "")
    case 21 => Static("age", "")
    case 22 => Static("allow", "")
    case 23 => Static("authorization", "")
    case 24 => Static("cache-control", "")
    case 25 => Static("content-disposition", "")
    case 26 => Static("content-encoding", "")
    case 27 => Static("content-language", "")
    case 28 => Static("content-length", "")
    case 29 => Static("content-location", "")
    case 30 => Static("content-range", "")
    case 31 => Static("content-type", "")
    case 32 => Static("cookie", "")
    case 33 => Static("date", "")
    case 34 => Static("etag", "")
    case 35 => Static("expect", "")
    case 36 => Static("expires", "")
    case 37 => Static("from", "")
    case 38 => Static("host", "")
    case 39 => Static("if-match", "")
    case 40 => Static("if-modified-since", "")
    case 41 => Static("if-none-match", "")
    case 42 => Static("if-range", "")
    case 43 => Static("if-unmodified-since", "")
    case 44 => Static("last-modified", "")
    case 45 => Static("link", "")
    case 46 => Static("location", "")
    case 47 => Static("max-forwards", "")
    case 48 => Static("proxy-authenticate", "")
    case 49 => Static("proxy-authorization", "")
    case 50 => Static("range", "")
    case 51 => Static("referer", "")
    case 52 => Static("refresh", "")
    case 53 => Static("retry-after", "")
    case 54 => Static("server", "")
    case 55 => Static("set-cookie", "")
    case 56 => Static("strict-transport-security", "")
    case 57 => Static("transfer-encoding", "")
    case 58 => Static("user-agent", "")
    case 59 => Static("vary", "")
    case 60 => Static("via", "")
    case _ => Static("www-authenticate", "")
  }

  // -------------------------------------------------------------------------
  // The dynamic table as a value.
  // -------------------------------------------------------------------------

  function Cost(f: Field): nat {
    |f.name| + |f.value| + ENTRY_OVERHEAD
  }

  function SizeOf(entries: seq<Field>): nat {
    if entries == [] then 0
    else SizeOf(entries[..|entries| - 1]) + Cost(entries[|entries| - 1])
  }

  /** Drop the oldest entries until what is left fits in `target`. */
  function EvictTo(entries: seq<Field>, target: nat): (kept: seq<Field>)
    ensures kept <= entries && SizeOf(kept) <= target
  {
    if SizeOf(entries) <= target then entries
    else EvictTo(entries[..|entries| - 1], target)
  }

  function Saturating(a: nat, b: nat): nat {
    if a >= b then a - b else 0
  }

  /** Entries newest first, and the octet budget they are held to. */
  datatype Table = Table(entries: seq<Field>, max: nat) {

    ghost predicate Fits() {
      SizeOf(entries) <= max
    }

    function Resize(size: nat): (t: Table)
      ensures t.Fits()
    {
      Table(EvictTo(entries, size), size)
    }

    /** An entry larger than the whole table empties it and is not stored. */
    function Insert(f: Field): Table {
      var kept := EvictTo(entries, Saturating(max, Cost(f)));
      Table(if Cost(f) > max then kept else [f] + kept, max)
    }

    /** The field at a wire index, static entries first. */
    function At(index: nat): Option<Field> {
      if index == 0 then None
      else if index <= STATIC_LEN then Some(StaticEntry(index))
      else if index - STATIC_LEN - 1 < |entries| then Some(entries[index - STATIC_LEN - 1])
      else None
    }

    function Last(): nat {
      STATIC_LEN + |entries|
    }

    function FirstFull(f: Field, from: nat): (index: Option<nat>)
      decreases Last() + 1 - from
    {
      if from > Last() then None
      else if At(from) == Some(f) then Some(from)
      else FirstFull(f, from + 1)
    }

    function FirstName(name: Bytes, from: nat): (index: Option<nat>)
      decreases Last() + 1 - from
    {
      if from > Last() then None
      else if At(from).Some? && At(from).value.name == name then Some(from)
      else FirstName(name, from + 1)
    }

    /** The best entry for a field: the first full match, else the first name. */
    function Find(f: Field): Match {
      match FirstFull(f, 1)
      case Some(i) => Full(i)
      case None =>
        match FirstName(f.name, 1)
        case Some(i) => Name(i)
        case None => NoMatch
    }
  }

  datatype Match = Full(index: nat) | Name(index: nat) | NoMatch

  // -------------------------------------------------------------------------
  // Eviction keeps the newest entries, and as many as fit.
  // -------------------------------------------------------------------------

  lemma {:induction false} SizeOfConcat(a: seq<Field>, b: seq<Field>)
    ensures SizeOf(a + b) == SizeOf(a) + SizeOf(b)
  {
    if b == [] {
      assert a + b == a;
    } else {
      assert (a + b)[..|a + b| - 1] == a + b[..|b| - 1];
      SizeOfConcat(a, b[..|b| - 1]);
    }
  }

  lemma {:induction false} SizeOfPrefix(a: seq<Field>, b: seq<Field>)
    requires a <= b
    ensures SizeOf(a) <= SizeOf(b)
    ensures SizeOf(a) == SizeOf(b) ==> a == b
  {
    assert b == a + b[|a|..];
    SizeOfConcat(a, b[|a|..]);
    if a != b {
      var rest := b[|a|..];
      assert SizeOf(rest) >= Cost(rest[|rest| - 1]);
    }
  }

  /** What eviction keeps is the longest prefix that fits. */
  lemma {:induction false} EvictIsLongest(entries: seq<Field>, target: nat, p: seq<Field>)
    requires p <= entries && SizeOf(p) <= target
    ensures p <= EvictTo(entries, target)
  {
    if SizeOf(entries) > target {
      assert p == entries[..|p|];
      assert entries[..|entries|] == entries;
      assert |p| != |entries|;
      EvictIsLongest(entries[..|entries| - 1], target, p);
    }
  }

  /** Evicting a prefix keeps a prefix. */
  lemma EvictPrefix(a: seq<Field>, b: seq<Field>, target: nat)
    requires a <= b
    ensures EvictTo(a, target) <= EvictTo(b, target)
  {
    EvictIsLongest(b, target, EvictTo(a, target));
  }

  /** Evicting twice is evicting once to the smaller bound. */
  lemma {:induction false} EvictTwice(entries: seq<Field>, s: nat, t: nat)
    ensures EvictTo(EvictTo(entries, s), t) == EvictTo(entries, Min(s, t))
  {
    var once := EvictTo(entries, Min(s, t));
    var twice := EvictTo(EvictTo(entries, s), t);
    EvictIsLongest(entries, s, once);
    EvictIsLongest(EvictTo(entries, s), t, once);
    SizeOfPrefix(twice, EvictTo(entries, s));
    EvictIsLongest(entries, Min(s, t), twice);
  }

  lemma EvictNothing(entries: seq<Field>, target: nat)
    ensures EvictTo(entries, target) == entries <==> SizeOf(entries) <= target
  {
  }

  /** Insertion respects the budget. */
  lemma InsertFits(t: Table, f: Field)
    ensures t.Insert(f).Fits()
  {
    var kept := EvictTo(t.entries, Saturating(t.max, Cost(f)));
    SizeOfCons(f, kept);
  }

  lemma SizeOfCons(f: Field, entries: seq<Field>)
    ensures SizeOf([f] + entries) == Cost(f) + SizeOf(entries)
  {
    SizeOfConcat([f], entries);
    assert [f][..0] == [];
  }

  /** There is room for few enough entries that every index fits in 32 bits. */
  lemma {:induction false} EntryCount(entries: seq<Field>)
    ensures 32 * |entries| <= SizeOf(entries)
  {
    if entries != [] {
      EntryCount(entries[..|entries| - 1]);
    }
  }

  // -------------------------------------------------------------------------
  // Searching.
  // -------------------------------------------------------------------------

  lemma {:induction false} FirstFullIsFirst(t: Table, f: Field, from: nat)
    ensures match t.FirstFull(f, from)
            case Some(i) => from <= i <= t.Last() && t.At(i) == Some(f) &&
                            forall j :: from <= j < i ==> t.At(j) != Some(f)
            case None => forall j :: from <= j <= t.Last() ==> t.At(j) != Some(f)
    decreases t.Last() + 1 - from
  {
    hide StaticEntry;
    if from <= t.Last() && t.At(from) != Some(f) {
      FirstFullIsFirst(t, f, from + 1);
    }
  }

  predicate NamedAt(t: Table, name: Bytes, index: nat) {
    t.At(index).Some? && t.At(index).value.name == name
  }

  lemma {:induction false} FirstNameIsFirst(t: Table, name: Bytes, from: nat)
    ensures match t.FirstName(name, from)
            case Some(i) => from <= i <= t.Last() && NamedAt(t, name, i) &&
                            forall j :: from <= j < i ==> !NamedAt(t, name, j)
            case None => forall j :: from <= j <= t.Last() ==> !NamedAt(t, name, j)
    decreases t.Last() + 1 - from
  {
    hide StaticEntry;
    if from <= t.Last() && !NamedAt(t, name, from) {
      FirstNameIsFirst(t, name, from + 1);
    }
  }

  /** The search finds the lowest full match, failing that the lowest name match,
      and reports nothing only when no entry has the name. */
  lemma FindIsBest(t: Table, f: Field)
    ensures match t.Find(f)
            case Full(i) => 1 <= i <= t.Last() && t.At(i) == Some(f) &&
                            forall j :: 1 <= j < i ==> t.At(j) != Some(f)
            case Name(i) => 1 <= i <= t.Last() && NamedAt(t, f.name, i) &&
                            (forall j :: 1 <= j < i ==> !NamedAt(t, f.name, j)) &&
                            (forall j :: 1 <= j <= t.Last() ==> t.At(j) != Some(f))
            case NoMatch => forall j :: 1 <= j <= t.Last() ==> !NamedAt(t, f.name, j)
  {
    hide StaticEntry;
    FirstFullIsFirst(t, f, 1);
    FirstNameIsFirst(t, f.name, 1);
  }

  /** Every index a table resolves, a longer table resolves alike. */
  lemma PrefixResolves(a: Table, b: Table, index: nat)
    requires a.entries <= b.entries && a.At(index).Some?
    ensures b.At(index) == a.At(index)
  {
  }

  // -------------------------------------------------------------------------
  // The dynamic table as it runs.
  // -------------------------------------------------------------------------

  class DynamicTable {
    var entries: seq<Field>
    var size: nat
    var maxSize: nat

    /** The size kept is the sum of the entries' costs, and within the budget. */
    ghost predicate Valid()
      reads this
    {
      size == SizeOf(entries) && size <= maxSize
    }

    ghost function Model(): Table
      reads this
    {
      Table(entries, maxSize)
    }

    constructor (max: nat)
      ensures Valid() && Model() == Table([], max)
    {
      entries, size, maxSize := [], 0, max;
    }

    /** Drop the oldest entries until what is left fits in `target`. */
    method Evict(target: nat)
      requires size == SizeOf(entries)
      modifies this`entries, this`size
      ensures entries == EvictTo(old(entries), target)
      ensures size == SizeOf(entries) <= target
    {
      while size > target
        invariant size == SizeOf(entries)
        invariant EvictTo(entries, target) == EvictTo(old(entries), target)
        decreases |entries|
      {
        var oldest := entries[|entries| - 1];
        entries := entries[..|entries| - 1];
        size := size - (|oldest.name| + |oldest.value| + ENTRY_OVERHEAD);
      }
    }

    method Insert(name: Bytes, value: Bytes)
      requires Valid()
      modifies this
      ensures Valid()
      ensures Model() == old(Model()).Insert(Field(name, value))
    {
      hide SizeOf, EvictTo;
      var cost := |name| + |value| + ENTRY_OVERHEAD;
      InsertFits(Model(), Field(name, value));
      Evict(if maxSize >= cost then maxSize - cost else 0);
      if cost > maxSize {
        return;
      }
      SizeOfCons(Field(name, value), entries);
      entries := [Field(name, value)] + entries;
      size := size + cost;
    }

    method SetMaxSize(max: nat)
      requires size == SizeOf(entries)
      modifies this
      ensures Valid()
      ensures Model() == old(Model()).Resize(max)
    {
      maxSize := max;
      Evict(max);
    }

    /** Resolve a wire index across both tables. */
    method Lookup(index: nat) returns (f: Option<Field>)
      ensures f == Model().At(index)
    {
      if index == 0 {
        return None;
      }
      if index <= STATIC_LEN {
        return Some(StaticEntry(index));
      }
      var i := index - STATIC_LEN - 1;
      f := if i < |entries| then Some(entries[i]) else None;
    }

    /** Search the static table and then the dynamic one, stopping at a full match. */
    method Find(f: Field) returns (m: Match)
      ensures m == Model().Find(f)
    {
      hide StaticEntry;
      ghost var t := Model();
      var nameOnly: Option<nat> := None;
      for i := 0 to STATIC_LEN
        invariant t.FirstFull(f, 1) == t.FirstFull(f, i + 1)
        invariant t.FirstName(f.name, 1) == if nameOnly.Some? then nameOnly else t.FirstName(f.name, i + 1)
      {
        var e := StaticEntry(i + 1);
        if e.name == f.name {
          if e.value == f.value {
            return Full(i + 1);
          }
          if nameOnly == None {
            nameOnly := Some(i + 1);
          }
        }
      }
      for i := 0 to |entries|
        invariant t.FirstFull(f, 1) == t.FirstFull(f, STATIC_LEN + i + 1)
        invariant t.FirstName(f.name, 1) ==
                  if nameOnly.Some? then nameOnly else t.FirstName(f.name, STATIC_LEN + i + 1)
      {
        if entries[i].name == f.name {
          var index := STATIC_LEN + i + 1;
          if entries[i].value == f.value {
            return Full(index);
          }
          if nameOnly == None {
            nameOnly := Some(index);
          }
        }
      }
      m := if nameOnly.Some? then Name(nameOnly.value) else NoMatch;
    }
  }
}
