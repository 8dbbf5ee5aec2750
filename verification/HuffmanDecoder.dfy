/** The nibble automaton: a code tree built in an arena, numbered into states,
    and tabulated sixteen transitions a state. Each step is proved against the
    bit-by-bit walk of `Huffman`. */
module HuffmanDecoder {
  import opened Octets
  import opened HuffmanCode
  import opened Huffman

  /** A node's two branches; `None` where the branch is absent. */
  datatype Kids = Kids(zero: Option<nat>, one: Option<nat>) {
    function At(bit: bool): Option<nat> {
      if bit then one else zero
    }

    function With(bit: bool, child: nat): Kids {
      if bit then this.(one := Some(child)) else this.(zero := Some(child))
    }
  }

  /** The code tree in an arena. Node 0 is the root and `symbol` is set on leaves. */
  datatype Arena = Arena(children: seq<Kids>, symbol: seq<Option<Symbol>>)

  // -------------------------------------------------------------------------
  // What an arena means: node `n` stands for the bit path `paths[n]`.
  // -------------------------------------------------------------------------

  ghost predicate Shaped(a: Arena, paths: seq<seq<bool>>) {
    && |a.children| == |a.symbol| == |paths| > 0
    && paths[0] == []
  }

  ghost predicate Distinct(paths: seq<seq<bool>>) {
    forall m, n :: 0 <= m < |paths| && 0 <= n < |paths| && paths[m] == paths[n] ==> m == n
  }

  /** A branch leads to the node for the longer path, when there is one. */
  ghost predicate LinkedAt(a: Arena, paths: seq<seq<bool>>, n: nat, bit: bool)
    requires Shaped(a, paths) && n < |paths|
  {
    match a.children[n].At(bit)
    case Some(m) => m < |paths| && paths[m] == paths[n] + [bit]
    case None => paths[n] + [bit] !in paths
  }

  ghost predicate Linked(a: Arena, paths: seq<seq<bool>>)
    requires Shaped(a, paths)
  {
    forall n, bit :: 0 <= n < |paths| ==> LinkedAt(a, paths, n, bit)
  }

  /** Every node but the root hangs from another. */
  ghost predicate Rooted(paths: seq<seq<bool>>) {
    forall n :: 0 <= n < |paths| && paths[n] != [] ==> paths[n][..|paths[n]| - 1] in paths
  }

  /** The leaves are the first `done` codes. */
  ghost predicate Labelled(a: Arena, paths: seq<seq<bool>>, done: nat)
    requires Shaped(a, paths)
  {
    && (forall n :: 0 <= n < |paths| && a.symbol[n].Some? ==>
         a.symbol[n].value < done && paths[n] == CodeBits(a.symbol[n].value))
    && (forall n, s: Symbol :: 0 <= n < |paths| && s < done && paths[n] == CodeBits(s) ==>
         a.symbol[n] == Some(s))
  }

  ghost predicate Inserted(paths: seq<seq<bool>>, done: nat) {
    forall s: Symbol :: s < done ==> CodeBits(s) in paths
  }

  /** Each node lies on the way to some code. */
  ghost predicate OnTheWay(path: seq<bool>) {
    exists s: Symbol :: path <= CodeBits(s)
  }

  ghost predicate Pruned(paths: seq<seq<bool>>) {
    forall n :: 0 <= n < |paths| ==> OnTheWay(paths[n])
  }

  ghost predicate Tree(a: Arena, paths: seq<seq<bool>>, done: nat) {
    && Shaped(a, paths)
    && Distinct(paths)
    && Linked(a, paths)
    && Rooted(paths)
    && Labelled(a, paths, done)
    && Inserted(paths, done)
    && Pruned(paths)
  }

  // -------------------------------------------------------------------------
  // Building the tree.
  // -------------------------------------------------------------------------

  /** Hang a new node from `n`'s absent branch. */
  function Graft(a: Arena, n: nat, bit: bool): Arena
    requires n < |a.children|
  {
    Arena(a.children[n := a.children[n].With(bit, |a.children|)] + [Kids(None, None)],
          a.symbol + [None])
  }

  /** A path with no node has no node below it. */
  lemma NoGrandchild(paths: seq<seq<bool>>, q: seq<bool>, b: bool)
    requires Rooted(paths) && q !in paths
    ensures q + [b] !in paths
  {
    var longer := q + [b];
    assert longer[..|longer| - 1] == q;
  }

  lemma GraftKeepsLinks(a: Arena, paths: seq<seq<bool>>, n: nat, bit: bool)
    requires Shaped(a, paths) && Distinct(paths) && Linked(a, paths) && Rooted(paths)
    requires n < |paths| && a.children[n].At(bit) == None
    ensures var paths' := paths + [paths[n] + [bit]];
            Shaped(Graft(a, n, bit), paths') && Distinct(paths') && Linked(Graft(a, n, bit), paths') && Rooted(paths')
  {
    var q := paths[n] + [bit];
    var paths' := paths + [q];
    var a' := Graft(a, n, bit);
    assert LinkedAt(a, paths, n, bit);
    assert q !in paths;
    assert Shaped(a', paths');
    assert q[..|q| - 1] == paths[n];
    forall m, b | 0 <= m < |paths'| ensures LinkedAt(a', paths', m, b) {
      if m == |paths| {
        var longer := q + [b];
        assert longer != q;
        assert longer !in paths by {
          NoGrandchild(paths, q, b);
        }
      } else {
        assert LinkedAt(a, paths, m, b);
        if paths[m] + [b] == q {
          assert (paths[m] + [b])[..|paths[m]|] == q[..|paths[n]|];
          assert paths[m] == paths[n];
          assert (paths[m] + [b])[|paths[m]|] == q[|paths[n]|];
        }
      }
    }
  }

  /** A new path that is no code leaves the labels right. */
  lemma GraftKeepsLabels(a: Arena, paths: seq<seq<bool>>, done: nat, n: nat, bit: bool, q: seq<bool>)
    requires Shaped(a, paths) && Labelled(a, paths, done) && Inserted(paths, done)
    requires n < |paths| && q !in paths
    ensures Labelled(Graft(a, n, bit), paths + [q], done) && Inserted(paths + [q], done)
  {
    hide CodeBits;
    var a', paths' := Graft(a, n, bit), paths + [q];
    forall m | 0 <= m < |paths'| && a'.symbol[m].Some?
      ensures a'.symbol[m].value < done && paths'[m] == CodeBits(a'.symbol[m].value)
    {
      assert m < |paths| && a'.symbol[m] == a.symbol[m];
    }
    forall m, s: Symbol | 0 <= m < |paths'| && s < done && paths'[m] == CodeBits(s)
      ensures a'.symbol[m] == Some(s)
    {
      assert CodeBits(s) in paths;
      assert m < |paths| && paths'[m] == paths[m];
    }
  }

  lemma GraftKeepsTree(a: Arena, paths: seq<seq<bool>>, done: nat, n: nat, bit: bool, s: Symbol)
    requires Tree(a, paths, done)
    requires n < |paths| && a.children[n].At(bit) == None
    requires paths[n] + [bit] <= CodeBits(s)
    ensures Tree(Graft(a, n, bit), paths + [paths[n] + [bit]], done)
  {
    hide CodeBits, Labelled, Inserted, Distinct, Rooted;
    var q := paths[n] + [bit];
    assert LinkedAt(a, paths, n, bit);
    GraftKeepsLabels(a, paths, done, n, bit, q);
    GraftKeepsLinks(a, paths, n, bit);
    hide Linked, LinkedAt;
    assert OnTheWay(q);
  }

  lemma Descend(a: Arena, paths: seq<seq<bool>>, n: nat, bit: bool)
    requires Shaped(a, paths) && Linked(a, paths) && n < |paths|
    requires a.children[n].At(bit).Some?
    ensures var m := a.children[n].At(bit).value; m < |paths| && paths[m] == paths[n] + [bit]
  {
    assert LinkedAt(a, paths, n, bit);
  }

  lemma NextBit(s: Symbol, i: nat)
    requires i < CodeOf(s).len
    ensures CodeBits(s)[..i + 1] ==
            CodeBits(s)[..i] + [(CodeOf(s).bits / Pow2(CodeOf(s).len - 1 - i)) % 2 == 1]
  {
    hide CodeOf;
    BitAt(CodeOf(s).bits, CodeOf(s).len, i);
  }

  /** Insert every code, a bit at a time, creating the nodes it needs. */
  method BuildTree() returns (a: Arena, ghost paths: seq<seq<bool>>)
    ensures Tree(a, paths, 257)
    ensures |a.children| <= 7711
  {
    hide CodeOf, CodeBits, Pow2, Linked, Labelled, Inserted, Distinct, Rooted, Pruned;
    a := Arena([Kids(None, None)], [None]);
    paths := [[]];
    SingletonTree();
    for sym := 0 to 257
      invariant Tree(a, paths, sym)
      invariant |a.children| <= 1 + 30 * sym
    {
      var code := CodeOf(sym);
      CodeLength(sym);
      var node: nat := 0;
      for i := 0 to code.len
        invariant Tree(a, paths, sym)
        invariant node < |paths| && paths[node] == CodeBits(sym)[..i]
        invariant |a.children| <= 1 + 30 * sym + i
      {
        var bit := (code.bits / Pow2(code.len - 1 - i)) % 2 == 1;
        NextBit(sym, i);
        if a.children[node].At(bit) == None {
          GraftKeepsTree(a, paths, sym, node, bit, sym);
          paths := paths + [paths[node] + [bit]];
          a := Graft(a, node, bit);
          node := |a.children| - 1;
        } else {
          Descend(a, paths, node, bit);
          node := a.children[node].At(bit).value;
        }
      }
      LabelLeaf(a, paths, sym, node);
      a := a.(symbol := a.symbol[node := Some(sym)]);
    }
  }

  lemma SingletonTree()
    ensures Tree(Arena([Kids(None, None)], [None]), [[]], 0)
  {
    hide CodeOf;
    assert [] <= CodeBits(0);
    assert OnTheWay([]);
  }

  lemma LabelLeaf(a: Arena, paths: seq<seq<bool>>, s: Symbol, n: nat)
    requires Tree(a, paths, s)
    requires n < |paths| && paths[n] == CodeBits(s)
    ensures Tree(a.(symbol := a.symbol[n := Some(s)]), paths, s + 1)
  {
    hide CodeBits, Rooted, Pruned;
    var a' := a.(symbol := a.symbol[n := Some(s)]);
    LabelNewLeaf(a, paths, s, n);
    hide Labelled, Distinct;
    forall m, bit | 0 <= m < |paths| ensures LinkedAt(a', paths, m, bit) {
      assert LinkedAt(a, paths, m, bit);
    }
    assert Inserted(paths, s + 1);
  }

  lemma LabelNewLeaf(a: Arena, paths: seq<seq<bool>>, s: Symbol, n: nat)
    requires Shaped(a, paths) && Distinct(paths) && Labelled(a, paths, s)
    requires n < |paths| && paths[n] == CodeBits(s)
    ensures Labelled(a.(symbol := a.symbol[n := Some(s)]), paths, s + 1)
  {
    hide CodeBits;
    var a' := a.(symbol := a.symbol[n := Some(s)]);
    forall m, t: Symbol | 0 <= m < |paths| && t < s + 1 && paths[m] == CodeBits(t)
      ensures a'.symbol[m] == Some(t)
    {
      if m == n && t != s {
        PrefixFree(t, s);
      }
      if m != n {
        assert paths[m] != paths[n];
      }
    }
  }

  // -------------------------------------------------------------------------
  // The finished tree: a node is a leaf or has both branches.
  // -------------------------------------------------------------------------

  lemma {:induction false} AncestorIn(paths: seq<seq<bool>>, p: seq<bool>, k: nat)
    requires Rooted(paths) && p in paths && k <= |p|
    ensures p[..k] in paths
    decreases |p|
  {
    if k == |p| {
      assert p[..k] == p;
    } else {
      var shorter := p[..|p| - 1];
      AncestorIn(paths, shorter, k);
      assert shorter[..k] == p[..k];
    }
  }

  lemma LabelIsSymbolAt(a: Arena, paths: seq<seq<bool>>, n: nat)
    requires Tree(a, paths, 257) && n < |paths|
    ensures SymbolAt(paths[n]) == a.symbol[n]
  {
    hide CodeBits, Linked, Inserted, Distinct, Rooted, Pruned;
    if a.symbol[n].Some? {
      SymbolAtCode(a.symbol[n].value);
    } else if s: Symbol :| CodeBits(s) == paths[n] {
      assert false;
    }
  }

  lemma NodeOnTheWay(paths: seq<seq<bool>>, n: nat)
    requires Pruned(paths) && n < |paths|
    ensures OnTheWay(paths[n])
  {
  }

  lemma NotACode(a: Arena, paths: seq<seq<bool>>, n: nat, s: Symbol)
    requires Shaped(a, paths) && Labelled(a, paths, 257) && n < |paths| && a.symbol[n] == None
    ensures paths[n] != CodeBits(s)
  {
    hide CodeBits;
  }

  lemma CodeHasNode(paths: seq<seq<bool>>, s: Symbol)
    requires Inserted(paths, 257)
    ensures CodeBits(s) in paths
  {
  }

  lemma LinkAt(a: Arena, paths: seq<seq<bool>>, n: nat, bit: bool)
    requires Shaped(a, paths) && Linked(a, paths) && n < |paths|
    ensures LinkedAt(a, paths, n, bit)
  {
  }

  lemma LeafHasNoBranch(a: Arena, paths: seq<seq<bool>>, n: nat, bit: bool)
    requires Tree(a, paths, 257) && n < |paths| && a.symbol[n].Some?
    ensures a.children[n].At(bit) == None
  {
    hide CodeBits, Inserted, Distinct, Pruned, Linked, Rooted;
    LinkAt(a, paths, n, bit);
    var s := a.symbol[n].value;
    if a.children[n].At(bit).Some? {
      var m := a.children[n].At(bit).value;
      assert OnTheWay(paths[m]) by { NodeOnTheWay(paths, m); }
      var t: Symbol :| paths[m] <= CodeBits(t);
      assert CodeBits(s) <= CodeBits(t) && |CodeBits(s)| < |CodeBits(t)|;
      PrefixFree(s, t);
    }
  }

  lemma InnerHasBranch(a: Arena, paths: seq<seq<bool>>, n: nat, bit: bool)
    requires Tree(a, paths, 257) && n < |paths| && a.symbol[n] == None
    ensures a.children[n].At(bit).Some?
  {
    hide CodeBits, Labelled, Inserted, Distinct, Pruned, Linked;
    assert OnTheWay(paths[n]) by { NodeOnTheWay(paths, n); }
    var s: Symbol :| paths[n] <= CodeBits(s);
    assert paths[n] != CodeBits(s) by { NotACode(a, paths, n, s); }
    var t := Complete(s, |paths[n]|, bit);
    CodeHasNode(paths, t);
    AncestorIn(paths, CodeBits(t), |paths[n]| + 1);
    assert CodeBits(s)[..|paths[n]|] == paths[n];
    assert CodeBits(t)[..|paths[n]| + 1] == paths[n] + [bit];
    LinkAt(a, paths, n, bit);
  }

  /** A finished tree, with the facts about its nodes that tabulating needs. */
  ghost predicate Full(a: Arena, paths: seq<seq<bool>>) {
    && Tree(a, paths, 257)
    && (forall n :: 0 <= n < |paths| ==> SymbolAt(paths[n]) == a.symbol[n])
    && (forall n, bit :: 0 <= n < |paths| ==> (a.children[n].At(bit).Some? <==> a.symbol[n] == None))
  }

  lemma TreeIsFull(a: Arena, paths: seq<seq<bool>>)
    requires Tree(a, paths, 257)
    ensures Full(a, paths)
  {
    hide Linked, Labelled, Inserted, Distinct, Rooted, Pruned;
    forall n | 0 <= n < |paths| ensures SymbolAt(paths[n]) == a.symbol[n] {
      LabelIsSymbolAt(a, paths, n);
    }
    forall n, bit | 0 <= n < |paths| ensures a.children[n].At(bit).Some? <==> a.symbol[n] == None {
      if a.symbol[n] == None {
        InnerHasBranch(a, paths, n, bit);
      } else {
        LeafHasNoBranch(a, paths, n, bit);
      }
    }
  }

  lemma FullDescend(a: Arena, paths: seq<seq<bool>>, n: nat, bit: bool)
    requires Full(a, paths) && n < |paths| && a.symbol[n] == None
    ensures a.children[n].At(bit).Some?
    ensures var m := a.children[n].At(bit).value;
            m < |paths| && paths[m] == paths[n] + [bit] && SymbolAt(paths[m]) == a.symbol[m]
  {
    hide Labelled, Inserted, Distinct, Rooted, Pruned;
    LinkAt(a, paths, n, bit);
  }

  // -------------------------------------------------------------------------
  // Numbering the inner nodes: these are the automaton's states.
  // -------------------------------------------------------------------------

  datatype Numbering = Numbering(stateOf: seq<Option<nat>>, nodes: seq<nat>)

  ghost predicate Numbers(num: Numbering, a: Arena) {
    && |num.stateOf| == |a.children|
    && (forall n :: 0 <= n < |a.children| ==>
         (num.stateOf[n].Some? <==> a.children[n] != Kids(None, None)))
    && (forall n :: 0 <= n < |a.children| && num.stateOf[n].Some? ==>
         num.stateOf[n].value < |num.nodes| && num.nodes[num.stateOf[n].value] == n)
    && (forall k :: 0 <= k < |num.nodes| ==>
         num.nodes[k] < |a.children| && num.stateOf[num.nodes[k]] == Some(k))
  }

  method NumberStates(a: Arena) returns (num: Numbering)
    requires |a.children| > 0 && a.children[0] != Kids(None, None)
    ensures Numbers(num, a)
    ensures |num.nodes| > 0 && num.nodes[0] == 0
    ensures |num.nodes| <= |a.children|
  {
    var stateOf: seq<Option<nat>>, nodes: seq<nat> := [], [];
    for node := 0 to |a.children|
      invariant |stateOf| == node && |nodes| <= node
      invariant forall n :: 0 <= n < node ==> (stateOf[n].Some? <==> a.children[n] != Kids(None, None))
      invariant forall n :: 0 <= n < node && stateOf[n].Some? ==>
                  stateOf[n].value < |nodes| && nodes[stateOf[n].value] == n
      invariant forall k :: 0 <= k < |nodes| ==> nodes[k] < node && stateOf[nodes[k]] == Some(k)
      invariant node > 0 ==> |nodes| > 0 && nodes[0] == 0
    {
      if a.children[node] != Kids(None, None) {
        stateOf := stateOf + [Some(|nodes|)];
        nodes := nodes + [node];
      } else {
        stateOf := stateOf + [None];
      }
    }
    num := Numbering(stateOf, nodes);
  }

  // -------------------------------------------------------------------------
  // The transition table.
  // -------------------------------------------------------------------------

  /** `next` is `None` where the four bits complete EOS. */
  datatype Transition = Transition(next: Option<nat>, emit: Option<Octet>)

  function Emitted(emit: Option<Octet>): seq<Octet> {
    if emit.Some? then [emit.value] else []
  }

  /** A transition does in one step what the walk does over four bits. */
  ghost predicate Steps(t: Transition, states: seq<seq<bool>>, w: Walked) {
    match w
    case Fault => t.next == None
    case Reached(out, path) =>
      && t.next.Some? && t.next.value < |states|
      && states[t.next.value] == path
      && out == Emitted(t.emit)
  }

  ghost predicate Row(row: seq<Transition>, states: seq<seq<bool>>, path: seq<bool>) {
    && |row| == 16
    && forall nibble :: 0 <= nibble < 16 ==> Steps(row[nibble], states, Walk(path, BitsOf(nibble, 4)))
  }

  /** One bit more on a walk that has not faulted. */
  lemma WalkSnoc(path: seq<bool>, bits: seq<bool>, bit: bool)
    ensures Walk(path, bits + [bit]) ==
            match Walk(path, bits) {
              case Fault => Fault
              case Reached(out, p) =>
                match SymbolAt(p + [bit]) {
                  case None => Reached(out, p + [bit])
                  case Some(s) => if s == EOS then Fault else Reached(out + [s], [])
                }
            }
  {
    WalkConcat(path, bits, [bit]);
    if Walk(path, bits).Reached? {
      var w := Walk(path, bits);
      OneBit(w.path, bit);
      assert w.out + [] == w.out;
    }
  }

  lemma OneBit(p: seq<bool>, bit: bool)
    ensures Walk(p, [bit]) ==
            match SymbolAt(p + [bit]) {
              case None => Reached([], p + [bit])
              case Some(s) => if s == EOS then Fault else Reached([s], [])
            }
  {
    assert [bit][1..] == [];
    assert Walk([], []) == Reached([], []);
    assert Walk(p + [bit], []) == Reached([], p + [bit]);
    if SymbolAt(p + [bit]).Some? {
      var s := SymbolAt(p + [bit]).value;
      if s != EOS {
        assert [s] + [] == [s];
      }
    }
  }

  lemma WalkFaulted(path: seq<bool>, a: seq<bool>, b: seq<bool>)
    requires Walk(path, a) == Fault
    ensures Walk(path, a + b) == Fault
  {
    WalkConcat(path, a, b);
  }

  /** State `k` stands for the path of the node it numbers. */
  ghost predicate StatePaths(states: seq<seq<bool>>, num: Numbering, paths: seq<seq<bool>>) {
    && |states| == |num.nodes|
    && forall k :: 0 <= k < |states| ==> num.nodes[k] < |paths| && states[k] == paths[num.nodes[k]]
  }

  lemma StateOfNode(a: Arena, num: Numbering, paths: seq<seq<bool>>, states: seq<seq<bool>>, n: nat)
    requires Full(a, paths) && Numbers(num, a) && StatePaths(states, num, paths)
    requires n < |paths| && a.symbol[n] == None
    ensures num.stateOf[n].Some? && num.stateOf[n].value < |states|
    ensures states[num.stateOf[n].value] == paths[n]
  {
    hide Tree;
    assert |a.children| == |paths| by { TreeSize(a, paths); }
    assert a.children[n].At(true).Some?;
  }

  lemma TreeSize(a: Arena, paths: seq<seq<bool>>)
    requires Tree(a, paths, 257)
    ensures |a.children| == |a.symbol| == |paths| > 0 && paths[0] == []
  {
  }

  /** Where the walk stands after some bits of a nibble: at node `node`, having
      completed at most one symbol. A symbol resets the depth, and a nibble has
      too few bits left to complete a second. */
  ghost predicate Standing(w: Walked, path: seq<bool>, emit: Option<Octet>, read: nat) {
    && w == Reached(Emitted(emit), path)
    && (emit.Some? ==> |path| < read)
  }

  lemma StandingStep(start: seq<bool>, bits: seq<bool>, bit: bool, path: seq<bool>, emit: Option<Octet>)
    requires |bits| < 4 && Standing(Walk(start, bits), path, emit, |bits|)
    ensures match SymbolAt(path + [bit]) {
              case None => Standing(Walk(start, bits + [bit]), path + [bit], emit, |bits| + 1)
              case Some(s) =>
                if s == EOS then Walk(start, bits + [bit]) == Fault
                else emit == None && Standing(Walk(start, bits + [bit]), [], Some(s), |bits| + 1)
            }
  {
    hide CodeOf, Walk;
    WalkSnoc(start, bits, bit);
    if SymbolAt(path + [bit]).Some? {
      CodeLength(SymbolAt(path + [bit]).value);
      assert [] + [SymbolAt(path + [bit]).value] == [SymbolAt(path + [bit]).value];
    }
  }

  lemma NibbleBits(nibble: nat, j: nat)
    requires j < 4
    ensures BitsOf(nibble, 4)[..j + 1] == BitsOf(nibble, 4)[..j] + [(nibble / Pow2(3 - j)) % 2 == 1]
  {
    hide BitsOf;
    BitAt(nibble, 4, j);
  }

  lemma StandingAtStart(path: seq<bool>)
    ensures Standing(Walk(path, []), path, None, 0)
  {
  }

  lemma StandingMeans(w: Walked, path: seq<bool>, emit: Option<Octet>)
    requires Standing(w, path, emit, 4)
    ensures w == Reached(Emitted(emit), path)
  {
  }

  lemma FullSize(a: Arena, paths: seq<seq<bool>>)
    requires Full(a, paths)
    ensures |a.children| == |a.symbol| == |paths| > 0 && paths[0] == []
  {
    TreeSize(a, paths);
  }

  lemma NumberingSize(num: Numbering, a: Arena)
    requires Numbers(num, a)
    ensures |num.stateOf| == |a.children|
  {
  }

  /** Follow four bits from an inner node. */
  method Tabulate(a: Arena, num: Numbering, start: nat, nibble: nat,
                  ghost paths: seq<seq<bool>>, ghost states: seq<seq<bool>>)
    returns (t: Transition)
    requires Full(a, paths) && Numbers(num, a) && StatePaths(states, num, paths)
    requires start < |paths| && a.symbol[start] == None && a.symbol[0] == None
    ensures Steps(t, states, Walk(paths[start], BitsOf(nibble, 4)))
  {
    hide Full, Numbers, StatePaths, Walk, BitsOf, CodeOf, Pow2, Standing;
    FullSize(a, paths);
    var node: nat := start;
    var emit: Option<Octet> := None;
    var failed := false;
    var j := 0;
    ghost var bits := BitsOf(nibble, 4);
    StandingAtStart(paths[start]);
    assert bits[..0] == [];
    while j < 4 && !failed
      invariant 0 <= j <= 4
      invariant !failed ==> node < |paths| && a.symbol[node] == None
      invariant !failed ==> Standing(Walk(paths[start], bits[..j]), paths[node], emit, j)
      invariant failed ==> Walk(paths[start], bits) == Fault
      decreases 4 - j, !failed
    {
      var branch := (nibble / Pow2(3 - j)) % 2 == 1;
      NibbleBits(nibble, j);
      StandingStep(paths[start], bits[..j], branch, paths[node], emit);
      FullDescend(a, paths, node, branch);
      node := a.children[node].At(branch).value;
      match a.symbol[node] {
        case Some(sym) =>
          if sym == EOS {
            assert bits == bits[..j + 1] + bits[j + 1..];
            WalkFaulted(paths[start], bits[..j + 1], bits[j + 1..]);
            failed := true;
          } else {
            emit := Some(sym);
            node := 0;
          }
        case None =>
      }
      j := j + 1;
    }
    if failed {
      t := Transition(None, None);
    } else {
      assert bits[..4] == bits;
      StateOfNode(a, num, paths, states, node);
      StandingMeans(Walk(paths[start], bits), paths[node], emit);
      NumberingSize(num, a);
      t := Transition(num.stateOf[node], emit);
    }
  }

  lemma RowAppend(row: seq<Transition>, t: Transition, states: seq<seq<bool>>, path: seq<bool>)
    requires |row| < 16
    requires forall n :: 0 <= n < |row| ==> Steps(row[n], states, Walk(path, BitsOf(n, 4)))
    requires Steps(t, states, Walk(path, BitsOf(|row|, 4)))
    ensures forall n :: 0 <= n < |row| + 1 ==> Steps((row + [t])[n], states, Walk(path, BitsOf(n, 4)))
  {
  }

  method TabulateRow(a: Arena, num: Numbering, start: nat,
                     ghost paths: seq<seq<bool>>, ghost states: seq<seq<bool>>)
    returns (row: seq<Transition>)
    requires Full(a, paths) && Numbers(num, a) && StatePaths(states, num, paths)
    requires start < |paths| && a.symbol[start] == None && a.symbol[0] == None
    ensures Row(row, states, paths[start])
  {
    hide Full, Numbers, StatePaths, Walk, BitsOf, CodeOf, Steps;
    row := [];
    for nibble := 0 to 16
      invariant |row| == nibble
      invariant forall n :: 0 <= n < nibble ==> Steps(row[n], states, Walk(paths[start], BitsOf(n, 4)))
    {
      var t := Tabulate(a, num, start, nibble, paths, states);
      RowAppend(row, t, states, paths[start]);
      row := row + [t];
    }
  }

  // -------------------------------------------------------------------------
  // Depth, and whether a state is a prefix of EOS, by one descent of the tree.
  // -------------------------------------------------------------------------

  datatype Pending = Pending(node: nat, depth: nat, allOnes: bool)

  /** What a pending entry says about its node. */
  ghost predicate Describes(e: Pending, paths: seq<seq<bool>>) {
    && e.node < |paths|
    && e.depth == |paths[e.node]|
    && (e.allOnes <==> paths[e.node] == Ones(|paths[e.node]|))
  }

  /** A node still to be visited is not on the stack twice. */
  ghost predicate Stacked(stack: seq<Pending>, seen: set<nat>, paths: seq<seq<bool>>) {
    && (forall i :: 0 <= i < |stack| ==> Describes(stack[i], paths) && stack[i].node !in seen)
    && (forall i, j :: 0 <= i < j < |stack| ==> stack[i].node != stack[j].node)
  }

  ghost predicate OnStack(stack: seq<Pending>, n: nat) {
    exists i :: 0 <= i < |stack| && stack[i].node == n
  }

  /** Everything reached hangs from something visited. */
  ghost predicate ParentSeen(seen: set<nat>, paths: seq<seq<bool>>, n: nat)
    requires n < |paths|
  {
    paths[n] == [] || exists m :: m in seen && m < |paths| && paths[m] == paths[n][..|paths[n]| - 1]
  }

  ghost predicate Hanging(stack: seq<Pending>, seen: set<nat>, paths: seq<seq<bool>>) {
    && (forall n :: n in seen ==> n < |paths| && ParentSeen(seen, paths, n))
    && (forall i :: 0 <= i < |stack| ==> stack[i].node < |paths| && ParentSeen(seen, paths, stack[i].node))
  }

  /** Nothing is left behind: a visited node's children are visited or pending. */
  ghost predicate Covered(a: Arena, stack: seq<Pending>, seen: set<nat>) {
    && (0 in seen || OnStack(stack, 0))
    && forall n, bit :: n in seen && n < |a.children| && a.children[n].At(bit).Some? ==>
         a.children[n].At(bit).value in seen || OnStack(stack, a.children[n].At(bit).value)
  }

  /** The facts recorded so far. */
  ghost predicate Recorded(depth: seq<nat>, eosPrefix: seq<bool>, num: Numbering, seen: set<nat>, paths: seq<seq<bool>>) {
    && |depth| == |eosPrefix| == |num.nodes|
    && forall k :: 0 <= k < |num.nodes| && num.nodes[k] in seen && num.nodes[k] < |paths| ==>
         && depth[k] == |paths[num.nodes[k]]|
         && (eosPrefix[k] <==> paths[num.nodes[k]] == Ones(depth[k]))
  }

  /** The two entries a visit pushes. */
  function Branches(a: Arena, e: Pending): seq<Pending>
    requires e.node < |a.children|
    requires a.children[e.node].zero.Some? && a.children[e.node].one.Some?
  {
    [Pending(a.children[e.node].zero.value, e.depth + 1, false),
     Pending(a.children[e.node].one.value, e.depth + 1, e.allOnes)]
  }

  lemma BranchesDescribed(a: Arena, paths: seq<seq<bool>>, e: Pending)
    requires Full(a, paths) && Describes(e, paths) && a.symbol[e.node] == None
    ensures a.children[e.node].zero.Some? && a.children[e.node].one.Some?
    ensures forall c :: c in Branches(a, e) ==>
              Describes(c, paths) && |paths[c.node]| > 0 && paths[c.node][..|paths[c.node]| - 1] == paths[e.node]
    ensures Branches(a, e)[0].node != Branches(a, e)[1].node
  {
    hide Full;
    FullSize(a, paths);
    FullDescend(a, paths, e.node, false);
    FullDescend(a, paths, e.node, true);
    var z, o := a.children[e.node].zero.value, a.children[e.node].one.value;
    var here := paths[e.node];
    assert a.children[e.node].At(false) == Some(z) && a.children[e.node].At(true) == Some(o);
    assert (here + [false])[..|here|] == here && (here + [true])[..|here|] == here;
    assert (here + [false])[|here|] == false;
    assert (here + [true])[|here|] == true;
    OnesSnoc(here);
    assert Ones(|here| + 1)[|here|] == true;
  }

  lemma OnesSnoc(p: seq<bool>)
    ensures p == Ones(|p|) <==> p + [true] == Ones(|p| + 1)
  {
    assert Ones(|p| + 1) == Ones(|p|) + [true];
    if p + [true] == Ones(|p| + 1) {
      assert p == (p + [true])[..|p|];
      assert Ones(|p|) == Ones(|p| + 1)[..|p|];
    }
  }

  /** A child of a node not yet visited has not been reached. */
  lemma ChildIsNew(paths: seq<seq<bool>>, stack: seq<Pending>, seen: set<nat>, parent: nat, child: nat)
    requires Distinct(paths) && Hanging(stack, seen, paths)
    requires parent < |paths| && child < |paths| && parent !in seen
    requires |paths[child]| > 0 && paths[child][..|paths[child]| - 1] == paths[parent]
    ensures child !in seen && !OnStack(stack, child)
  {
    if child in seen || OnStack(stack, child) {
      assert ParentSeen(seen, paths, child);
      var m :| m in seen && m < |paths| && paths[m] == paths[parent];
    }
  }

  lemma SeenGrows(seen: set<nat>, more: set<nat>, paths: seq<seq<bool>>, n: nat)
    requires n < |paths| && seen <= more && ParentSeen(seen, paths, n)
    ensures ParentSeen(more, paths, n)
  {
  }

  lemma PopKeeps(paths: seq<seq<bool>>, stack: seq<Pending>, seen: set<nat>)
    requires |stack| > 0 && Stacked(stack, seen, paths) && Hanging(stack, seen, paths)
    ensures var n := stack[|stack| - 1].node;
            var rest := stack[..|stack| - 1];
            n < |paths| && n !in seen && Stacked(rest, seen + {n}, paths) && Hanging(rest, seen + {n}, paths)
  {
    var n := stack[|stack| - 1].node;
    forall m | m in seen + {n} ensures m < |paths| && ParentSeen(seen + {n}, paths, m) {
      SeenGrows(seen, seen + {n}, paths, m);
    }
    forall i | 0 <= i < |stack| - 1 ensures ParentSeen(seen + {n}, paths, stack[i].node) {
      SeenGrows(seen, seen + {n}, paths, stack[i].node);
    }
  }

  lemma PushKeeps(paths: seq<seq<bool>>, stack: seq<Pending>, seen: set<nat>, e: Pending, parent: nat)
    requires Stacked(stack, seen, paths) && Hanging(stack, seen, paths)
    requires Describes(e, paths) && e.node !in seen && !OnStack(stack, e.node)
    requires parent in seen && parent < |paths|
    requires |paths[e.node]| > 0 && paths[e.node][..|paths[e.node]| - 1] == paths[parent]
    ensures Stacked(stack + [e], seen, paths) && Hanging(stack + [e], seen, paths)
  {
    assert ParentSeen(seen, paths, e.node);
    forall i | 0 <= i < |stack| ensures stack[i].node != e.node {
      assert OnStack(stack, stack[i].node);
    }
  }

  lemma VisitCovers(a: Arena, stack: seq<Pending>, seen: set<nat>, more: seq<Pending>)
    requires |stack| > 0 && Covered(a, stack, seen)
    requires stack[|stack| - 1].node < |a.children|
    requires var kids := a.children[stack[|stack| - 1].node];
             && (kids.zero.Some? ==> OnStack(more, kids.zero.value))
             && (kids.one.Some? ==> OnStack(more, kids.one.value))
    ensures Covered(a, stack[..|stack| - 1] + more, seen + {stack[|stack| - 1].node})
  {
    var n := stack[|stack| - 1].node;
    var stack' := stack[..|stack| - 1] + more;
    forall c | OnStack(stack, c) && c != n ensures OnStack(stack', c) {
      var i :| 0 <= i < |stack| && stack[i].node == c;
      assert stack'[i].node == c;
    }
    forall c | OnStack(more, c) ensures OnStack(stack', c) {
      var i :| 0 <= i < |more| && more[i].node == c;
      assert stack'[|stack| - 1 + i].node == c;
    }
  }

  /** Two new children of the node on top go on in its place. */
  lemma KidsPushed(paths: seq<seq<bool>>, stack: seq<Pending>, seen: set<nat>, k0: Pending, k1: Pending)
    requires |stack| > 0 && Distinct(paths) && Stacked(stack, seen, paths) && Hanging(stack, seen, paths)
    requires Describes(k0, paths) && Describes(k1, paths) && k0.node != k1.node
    requires var n := stack[|stack| - 1].node;
             && n < |paths| && k0.node < |paths| && k1.node < |paths| && n !in seen
             && |paths[k0.node]| > 0 && paths[k0.node][..|paths[k0.node]| - 1] == paths[n]
             && |paths[k1.node]| > 0 && paths[k1.node][..|paths[k1.node]| - 1] == paths[n]
    ensures var n := stack[|stack| - 1].node;
            var stack' := stack[..|stack| - 1] + [k0] + [k1];
            Stacked(stack', seen + {n}, paths) && Hanging(stack', seen + {n}, paths)
  {
    hide Stacked, Hanging, Describes, Distinct, OnStack;
    var n, rest := stack[|stack| - 1].node, stack[..|stack| - 1];
    PopKeeps(paths, stack, seen);
    ChildIsNew(paths, stack, seen, n, k0.node);
    ChildIsNew(paths, stack, seen, n, k1.node);
    OffShorter(stack, k0.node);
    OffShorter(stack, k1.node);
    PushKeeps(paths, rest, seen + {n}, k0, n);
    OffBoth(rest, k0, k1.node);
    PushKeeps(paths, rest + [k0], seen + {n}, k1, n);
  }

  lemma OffShorter(stack: seq<Pending>, n: nat)
    requires |stack| > 0 && !OnStack(stack, n)
    ensures !OnStack(stack[..|stack| - 1], n)
  {
    var rest := stack[..|stack| - 1];
    assert forall i :: 0 <= i < |rest| ==> rest[i] == stack[i];
  }

  lemma VisitInner(a: Arena, paths: seq<seq<bool>>, stack: seq<Pending>, seen: set<nat>)
    requires Full(a, paths) && Stacked(stack, seen, paths) && Hanging(stack, seen, paths) && Covered(a, stack, seen)
    requires |stack| > 0 && Describes(stack[|stack| - 1], paths) && a.symbol[stack[|stack| - 1].node] == None
    requires a.children[stack[|stack| - 1].node].zero.Some? && a.children[stack[|stack| - 1].node].one.Some?
    ensures var e := stack[|stack| - 1];
            var stack' := stack[..|stack| - 1] + Branches(a, e);
            Stacked(stack', seen + {e.node}, paths) && Hanging(stack', seen + {e.node}, paths) &&
            Covered(a, stack', seen + {e.node})
  {
    hide Full, Stacked, Hanging, Covered, Describes, Distinct, OnStack, Linked, Rooted;
    FullSize(a, paths);
    DescribedNode(stack[|stack| - 1], paths);
    FullDistinct(a, paths);
    var e, rest := stack[|stack| - 1], stack[..|stack| - 1];
    var kids := Branches(a, e);
    PopKeeps(paths, stack, seen);
    BranchesDescribed(a, paths, e);
    assert kids[0] in kids && kids[1] in kids;
    DescribedNode(kids[0], paths);
    DescribedNode(kids[1], paths);
    KidsPushed(paths, stack, seen, kids[0], kids[1]);
    assert rest + [kids[0]] + [kids[1]] == rest + kids;
    OnTop(kids, 0);
    OnTop(kids, 1);
    VisitCovers(a, stack, seen, kids);
  }

  lemma DescribedNode(e: Pending, paths: seq<seq<bool>>)
    requires Describes(e, paths)
    ensures e.node < |paths|
  {
  }

  lemma FullDistinct(a: Arena, paths: seq<seq<bool>>)
    requires Full(a, paths)
    ensures Distinct(paths) && Rooted(paths) && Shaped(a, paths) && Linked(a, paths)
  {
  }

  lemma OnTop(stack: seq<Pending>, i: nat)
    requires i < |stack|
    ensures OnStack(stack, stack[i].node)
  {
  }

  lemma OffBoth(stack: seq<Pending>, e: Pending, n: nat)
    requires !OnStack(stack, n) && e.node != n
    ensures !OnStack(stack + [e], n)
  {
  }

  lemma LeafKids(a: Arena, paths: seq<seq<bool>>, n: nat)
    requires Full(a, paths) && n < |paths| && a.symbol[n].Some?
    ensures n < |a.children| && a.children[n] == Kids(None, None)
  {
    hide Tree;
    FullSize(a, paths);
    assert a.children[n].At(false) == None && a.children[n].At(true) == None;
  }

  lemma VisitLeaf(a: Arena, paths: seq<seq<bool>>, stack: seq<Pending>, seen: set<nat>)
    requires Full(a, paths) && Stacked(stack, seen, paths) && Hanging(stack, seen, paths) && Covered(a, stack, seen)
    requires |stack| > 0 && Describes(stack[|stack| - 1], paths) && a.symbol[stack[|stack| - 1].node].Some?
    ensures var e := stack[|stack| - 1];
            var rest := stack[..|stack| - 1];
            Stacked(rest, seen + {e.node}, paths) && Hanging(rest, seen + {e.node}, paths) &&
            Covered(a, rest, seen + {e.node})
  {
    hide Stacked, Hanging, Covered, Tree, OnStack, Describes;
    FullSize(a, paths);
    DescribedNode(stack[|stack| - 1], paths);
    PopKeeps(paths, stack, seen);
    LeafKids(a, paths, stack[|stack| - 1].node);
    hide Full;
    VisitCovers(a, stack, seen, []);
    assert stack[..|stack| - 1] + [] == stack[..|stack| - 1];
  }

  /** With nothing pending, everything has been visited. */
  lemma {:induction false} AllSeen(a: Arena, paths: seq<seq<bool>>, seen: set<nat>, n: nat)
    requires Shaped(a, paths) && Distinct(paths) && Rooted(paths) && Linked(a, paths)
    requires Covered(a, [], seen) && n < |paths|
    ensures n in seen
    decreases |paths[n]|
  {
    if paths[n] == [] {
      assert n == 0;
    } else {
      var up := paths[n][..|paths[n]| - 1];
      var bit := paths[n][|paths[n]| - 1];
      assert up in paths;
      var m :| 0 <= m < |paths| && paths[m] == up;
      AllSeen(a, paths, seen, m);
      assert paths[m] + [bit] == paths[n];
      LinkAt(a, paths, m, bit);
      assert a.children[m].At(bit).Some?;
      assert a.children[m].At(bit).value == n;
    }
  }

  lemma RecordLeaf(depth: seq<nat>, eosPrefix: seq<bool>, a: Arena, num: Numbering, seen: set<nat>, paths: seq<seq<bool>>, n: nat)
    requires Full(a, paths) && Numbers(num, a) && Recorded(depth, eosPrefix, num, seen, paths)
    requires n < |paths| && a.symbol[n].Some?
    ensures Recorded(depth, eosPrefix, num, seen + {n}, paths)
  {
    hide Full;
    LeafKids(a, paths, n);
  }

  lemma RecordInner(depth: seq<nat>, eosPrefix: seq<bool>, a: Arena, num: Numbering, seen: set<nat>, paths: seq<seq<bool>>,
                    e: Pending, k: nat)
    requires Numbers(num, a) && Recorded(depth, eosPrefix, num, seen, paths)
    requires Describes(e, paths) && e.node < |a.children| && num.stateOf[e.node] == Some(k)
    ensures k < |depth| && k < |eosPrefix|
    ensures Recorded(depth[k := e.depth], eosPrefix[k := e.allOnes], num, seen + {e.node}, paths)
  {
  }

  ghost function Below(n: nat): set<nat> {
    if n == 0 then {} else Below(n - 1) + {n - 1}
  }

  lemma {:induction false} InBelow(n: nat, k: nat)
    ensures k in Below(n) <==> k < n
  {
    if n > 0 {
      InBelow(n - 1, k);
    }
  }

  method Descent(a: Arena, num: Numbering, ghost paths: seq<seq<bool>>)
    returns (depth: seq<nat>, eosPrefix: seq<bool>)
    requires Full(a, paths) && Numbers(num, a) && a.symbol[0] == None
    ensures Recorded(depth, eosPrefix, num, Below(|paths|), paths)
  {
    hide Full, Numbers, Stacked, Hanging, Covered, Recorded, Describes, Distinct, Rooted, Linked;
    FullSize(a, paths);
    NumberingSize(num, a);
    depth := seq(|num.nodes|, _ => 0);
    eosPrefix := seq(|num.nodes|, _ => false);
    var stack := [Pending(0, 0, true)];
    ghost var seen: set<nat> := {};
    ghost var all := Below(|paths|);
    FullDistinct(a, paths);
    DescentStarts(a, num, paths);
    while stack != []
      invariant Stacked(stack, seen, paths) && Hanging(stack, seen, paths) && Covered(a, stack, seen)
      invariant Recorded(depth, eosPrefix, num, seen, paths)
      invariant seen <= all
      decreases all - seen
    {
      var e := stack[|stack| - 1];
      TopDescribed(stack, seen, paths);
      DescribedNode(e, paths);
      if a.symbol[e.node].Some? {
        VisitLeaf(a, paths, stack, seen);
        RecordLeaf(depth, eosPrefix, a, num, seen, paths, e.node);
        stack := stack[..|stack| - 1];
      } else {
        BranchesDescribed(a, paths, e);
        InnerHasState(a, paths, num, e.node);
        VisitInner(a, paths, stack, seen);
        var state := num.stateOf[e.node].value;
        RecordInner(depth, eosPrefix, a, num, seen, paths, e, state);
        depth := depth[state := e.depth];
        eosPrefix := eosPrefix[state := e.allOnes];
        stack := stack[..|stack| - 1] + Branches(a, e);
      }
      InBelow(|paths|, e.node);
      assert e.node in all - seen;
      seen := seen + {e.node};
    }
    forall n | n in all ensures n in seen {
      InBelow(|paths|, n);
      AllSeen(a, paths, seen, n);
    }
    assert seen == all;
  }

  lemma DescentStarts(a: Arena, num: Numbering, paths: seq<seq<bool>>)
    requires |paths| > 0 && paths[0] == [] && Distinct(paths)
    ensures var stack := [Pending(0, 0, true)];
            Stacked(stack, {}, paths) && Hanging(stack, {}, paths) && Covered(a, stack, {})
    ensures Recorded(seq(|num.nodes|, _ => 0), seq(|num.nodes|, _ => false), num, {}, paths)
  {
    var stack := [Pending(0, 0, true)];
    assert stack[0].node == 0;
    assert paths[0] == Ones(0);
  }

  lemma TopDescribed(stack: seq<Pending>, seen: set<nat>, paths: seq<seq<bool>>)
    requires |stack| > 0 && Stacked(stack, seen, paths)
    ensures Describes(stack[|stack| - 1], paths) && stack[|stack| - 1].node !in seen
  {
  }

  lemma InnerHasState(a: Arena, paths: seq<seq<bool>>, num: Numbering, n: nat)
    requires Full(a, paths) && Numbers(num, a) && n < |paths| && a.symbol[n] == None
    ensures n < |a.children| && num.stateOf[n].Some? && num.stateOf[n].value < |num.nodes|
  {
    FullSize(a, paths);
    assert a.children[n].At(true).Some?;
  }

  // -------------------------------------------------------------------------
  // The whole table, and decoding with it.
  // -------------------------------------------------------------------------

  datatype DecodeTable = DecodeTable(states: seq<seq<Transition>>, depth: seq<nat>, eosPrefix: seq<bool>)

  /** The table is the bit-by-bit walk, four bits at a time: state `k` stands for
      the bit path `states[k]`. */
  ghost predicate Represents(t: DecodeTable, states: seq<seq<bool>>) {
    && |t.states| == |t.depth| == |t.eosPrefix| == |states| > 0
    && states[0] == []
    && (forall k :: 0 <= k < |states| ==> Row(t.states[k], states, states[k]))
    && (forall k :: 0 <= k < |states| ==>
         t.depth[k] == |states[k]| && (t.eosPrefix[k] <==> states[k] == Ones(|states[k]|)))
  }

  lemma RootIsInner(a: Arena, paths: seq<seq<bool>>)
    requires Full(a, paths)
    ensures a.symbol[0] == None && a.children[0] != Kids(None, None)
  {
    hide Tree, CodeOf;
    FullSize(a, paths);
    assert SymbolAt(paths[0]) == a.symbol[0];
    if a.symbol[0].Some? {
      CodeLength(a.symbol[0].value);
    } else {
      assert a.children[0].At(true).Some?;
    }
  }

  lemma StateIsInner(a: Arena, paths: seq<seq<bool>>, num: Numbering, k: nat)
    requires Full(a, paths) && Numbers(num, a) && k < |num.nodes|
    ensures num.nodes[k] < |paths| && a.symbol[num.nodes[k]] == None
  {
    hide Tree;
    FullSize(a, paths);
    var n := num.nodes[k];
    assert num.stateOf[n] == Some(k);
    if a.symbol[n].Some? {
      LeafKids(a, paths, n);
    }
  }

  method BuildTable() returns (t: DecodeTable, ghost states: seq<seq<bool>>)
    ensures Represents(t, states)
    ensures |t.states| <= 7711
  {
    hide Tree, Full, Numbers, Row, Recorded;
    var a: Arena;
    ghost var paths: seq<seq<bool>>;
    a, paths := BuildTree();
    TreeIsFull(a, paths);
    FullSize(a, paths);
    RootIsInner(a, paths);
    var num := NumberStates(a);
    forall k | 0 <= k < |num.nodes| ensures num.nodes[k] < |paths| {
      StateIsInner(a, paths, num, k);
    }
    states := seq(|num.nodes|, k requires 0 <= k < |num.nodes| => paths[num.nodes[k]]);
    assert StatePaths(states, num, paths);
    var rows: seq<seq<Transition>> := [];
    for k := 0 to |num.nodes|
      invariant |rows| == k
      invariant forall i :: 0 <= i < k ==> Row(rows[i], states, states[i])
    {
      StateIsInner(a, paths, num, k);
      var row := TabulateRow(a, num, num.nodes[k], paths, states);
      rows := rows + [row];
    }
    var depth, eosPrefix := Descent(a, num, paths);
    RecordedEverywhere(depth, eosPrefix, num, paths, states);
    t := DecodeTable(rows, depth, eosPrefix);
  }

  lemma {:induction false} RecordedEverywhere(depth: seq<nat>, eosPrefix: seq<bool>, num: Numbering, paths: seq<seq<bool>>, states: seq<seq<bool>>)
    requires Recorded(depth, eosPrefix, num, Below(|paths|), paths) && StatePaths(states, num, paths)
    ensures |depth| == |eosPrefix| == |states|
    ensures forall k :: 0 <= k < |states| ==>
              depth[k] == |states[k]| && (eosPrefix[k] <==> states[k] == Ones(|states[k]|))
  {
    forall k | 0 <= k < |states|
      ensures depth[k] == |states[k]| && (eosPrefix[k] <==> states[k] == Ones(|states[k]|))
    {
      InBelow(|paths|, num.nodes[k]);
    }
  }

  lemma OctetNibbles(o: Octet)
    ensures BitsOf(o, 8) == BitsOf(o / 16, 4) + BitsOf(o % 16, 4)
  {
    assert Pow2(4) == 16;
    BitsJoin(o / 16, 4, o % 16, 4);
  }

  lemma NibbleStep(t: DecodeTable, states: seq<seq<bool>>, state: nat, nibble: nat, bits: seq<bool>, out: seq<Octet>)
    requires Represents(t, states) && state < |states| && nibble < 16
    requires Walk([], bits) == Reached(out, states[state])
    ensures |t.states| == |states| && |t.states[state]| == 16
    ensures var tr := t.states[state][nibble];
            match tr.next
            case None => Walk([], bits + BitsOf(nibble, 4)) == Fault
            case Some(next) =>
              next < |states| && Walk([], bits + BitsOf(nibble, 4)) == Reached(out + Emitted(tr.emit), states[next])
  {
    hide Walk, BitsOf, Steps;
    assert Row(t.states[state], states, states[state]);
    var tr := t.states[state][nibble];
    var w := Walk(states[state], BitsOf(nibble, 4));
    assert Steps(tr, states, w);
    WalkConcat([], bits, BitsOf(nibble, 4));
    StepsMeans(tr, states, w);
  }

  lemma StepsMeans(t: Transition, states: seq<seq<bool>>, w: Walked)
    requires Steps(t, states, w)
    ensures match t.next
            case None => w == Fault
            case Some(next) => next < |states| && w == Reached(Emitted(t.emit), states[next])
  {
  }

  /** Decode with the table. */
  method DecodeWith(t: DecodeTable, ghost states: seq<seq<bool>>, src: seq<Octet>)
    returns (r: Result<seq<Octet>, HuffmanError>)
    requires Represents(t, states)
    ensures r == Decode(src)
  {
    hide Walk, BitsOf, OctetBits, Row, CodeOf;
    var out: seq<Octet> := [];
    var state: nat := 0;
    Nothing();
    for i := 0 to |src|
      invariant state < |states|
      invariant Walk([], OctetBits(src[..i])) == Reached(out, states[state])
    {
      var octet := src[i];
      ghost var before := OctetBits(src[..i]);
      assert src[..i + 1] == src[..i] + [octet];
      OctetBitsSnoc(src[..i], octet);
      OctetNibbles(octet);
      assert before + [] == before;
      for j := 0 to 2
        invariant state < |states|
        invariant Walk([], before + (if j == 0 then [] else if j == 1 then BitsOf(octet / 16, 4) else BitsOf(octet, 8))) ==
                  Reached(out, states[state])
      {
        var nibble := if j == 0 then octet / 16 else octet % 16;
        ghost var read := before + if j == 0 then [] else BitsOf(octet / 16, 4);
        NibbleStep(t, states, state, nibble, read, out);
        assert j == 1 ==> read + BitsOf(nibble, 4) == before + BitsOf(octet, 8);
        var tr := t.states[state][nibble];
        if tr.next == None {
          FaultSpreads(src, i, j, read + BitsOf(nibble, 4));
          return Err(EosInString);
        }
        if tr.emit.Some? {
          out := out + [tr.emit.value];
        }
        state := tr.next.value;
      }
    }
    assert src[..|src|] == src;
    if state != 0 {
      if t.depth[state] > 7 {
        return Err(PaddingTooLong);
      }
      if !t.eosPrefix[state] {
        return Err(PaddingNotOnes);
      }
    }
    assert Ones(0) == [];
    r := Ok(out);
  }

  lemma Nothing()
    ensures Walk([], OctetBits([])) == Reached([], [])
  {
  }

  lemma FaultSpreads(src: seq<Octet>, i: nat, j: nat, read: seq<bool>)
    requires i < |src| && j < 2
    requires Walk([], read) == Fault
    requires read == OctetBits(src[..i]) + if j == 0 then BitsOf(src[i] / 16, 4) else BitsOf(src[i], 8)
    ensures Decode(src) == Err(EosInString)
  {
    hide Walk, BitsOf, OctetBits;
    assert src == src[..i] + [src[i]] + src[i + 1..];
    assert src[..i] + [src[i]] == src[..i + 1];
    OctetBitsSnoc(src[..i], src[i]);
    OctetBitsConcat(src[..i + 1], src[i + 1..]);
    OctetNibbles(src[i]);
    var rest := (if j == 0 then BitsOf(src[i] % 16, 4) else []) + OctetBits(src[i + 1..]);
    assert OctetBits(src) == read + rest;
    WalkFaulted([], read, rest);
  }

  /** The decoder: the table is derived from the code, then driven by the input. */
  method DecodeString(src: seq<Octet>) returns (r: Result<seq<Octet>, HuffmanError>)
    ensures r == Decode(src)
    ensures forall out :: r == Ok(out) <==> Encode(out) == src
  {
    var t, states := BuildTable();
    r := DecodeWith(t, states, src);
    forall out ensures r == Ok(out) <==> Encode(out) == src {
      Bijection(src, out);
    }
  }
}
