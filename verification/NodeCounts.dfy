/** The ledger of references to link buffer nodes: who holds one, and that the counts follow.  What the
    operations on buffers do to chains is NodeChains; each of their atomic steps is one entry
    here, and every entry keeps the counts right. */
module NodeCounts {
  import opened Prelude

  /** Where a node's own reference is: with the chain of a buffer, cut off behind one, with the walk of a
      buffer that is inside the node's Release, before or after the reference to the origin was
      dropped, or dropped itself. */
  datatype Phase = Chain(buf: nat) | Stray | Leaving(buf: nat) | Parted(buf: nat) | Gone

  /** `released` counts the calls of Release other than by a window, `frees` how often the node's memory
      went back to the allocator. */
  datatype Node = Node(refer: int, origin: Option<nat>, readonly: bool, nocopy: bool, released: nat, recycled: bool, frees: nat)

  type Nodes = map<nat, Node>

  datatype Ledger = Ledger(nodes: Nodes, phase: map<nat, Phase>)

  predicate Reusable(nd: Node)
  {
    !nd.readonly && !nd.nocopy
  }

  /** AddInt32(&node.refer, -1), and what follows when it gives zero. */
  function Drop(nd: Node): Node
  {
    var d := nd.(refer := nd.refer - 1);
    if d.refer != 0 then d
    else d.(recycled := true, origin := None, frees := if Reusable(nd) then nd.frees + 1 else nd.frees)
  }

  /** newLinkBufferNode. */
  function Made(readonly: bool): Node
  {
    Node(1, None, readonly, false, 0, false, 0)
  }

  /** The root of the extends. */
  function Root(nodes: Nodes, x: nat): nat
    requires x in nodes
  {
    if nodes[x].origin.Some? then nodes[x].origin.value else x
  }

  /** Refer: a window `y` on the memory of `x`. */
  function Referred(nodes: Nodes, x: nat, y: nat): Nodes
    requires x in nodes && Root(nodes, x) in nodes
  {
    var r := Root(nodes, x);
    nodes[y := Made(true).(origin := Some(r))][r := nodes[r].(refer := nodes[r].refer + 1)]
  }

  // ---------------------------------------------------------------- who holds a node

  /** Has not dropped the reference to the origin. */
  predicate Looks(p: Phase)
  {
    p.Chain? || p.Stray? || p.Leaving?
  }

  /** Has not been released. */
  predicate Kept(p: Phase)
  {
    p.Chain? || p.Stray?
  }

  /** `y` holds a reference to `x`: its own, or, being a window on it, one to its origin. */
  predicate Holds(nd: Node, p: Phase, y: nat, x: nat)
  {
    (y == x && !p.Gone?) || (nd.origin == Some(x) && Looks(p))
  }

  predicate HoldsIn(h: Ledger, y: nat, x: nat)
  {
    y in h.nodes && y in h.phase && Holds(h.nodes[y], h.phase[y], y, x)
  }

  ghost function Holders(h: Ledger, x: nat): set<nat>
  {
    set y | y in h.nodes && HoldsIn(h, y, x)
  }

  ghost predicate Shaped(h: Ledger, x: nat)
    requires x in h.nodes && x in h.phase
  {
    var nd := h.nodes[x];
    && (nd.origin.Some? ==> nd.readonly && nd.origin.value != x && nd.origin.value in h.nodes && h.nodes[nd.origin.value].origin.None?)
    && (nd.recycled <==> nd.refer == 0)
    && nd.frees == (if nd.recycled && Reusable(nd) then 1 else 0)
    && (nd.nocopy ==> !nd.readonly)
    && nd.released == (if Kept(h.phase[x]) then 0 else 1)
  }

  ghost predicate Balanced(h: Ledger)
  {
    && h.phase.Keys == h.nodes.Keys
    && forall x :: x in h.nodes ==> Shaped(h, x) && h.nodes[x].refer == |Holders(h, x)|
  }

  // ---------------------------------------------------------------- the entries

  datatype Entry =
    | New(x: nat, buf: nat, readonly: bool)   // a node is linked into a buffer
    | Attach(x: nat, y: nat, buf: nat)         // a window y on node x is linked into a slice
    | Pin(x: nat)                            // nocopy read
    | Leave(x: nat, buf: nat)                 // the node is unlinked and Release called on it
    | Part(x: nat)                            // its origin is released
    | Finish(x: nat)                          // it is released itself

  predicate Enterable(h: Ledger, e: Entry)
  {
    match e
    case New(x, _, _) => x !in h.nodes
    case Attach(x, y, _) => x in h.nodes && y !in h.nodes && Root(h.nodes, x) in h.nodes && x in h.phase && h.phase[x].Chain?
    case Pin(x) => x in h.nodes && !h.nodes[x].readonly && x in h.phase && !h.phase[x].Gone?
    case Leave(x, _) => x in h.nodes && x in h.phase && h.phase[x].Chain?
    case Part(x) => x in h.nodes && x in h.phase && h.phase[x].Leaving? && h.nodes[x].origin.Some? && Root(h.nodes, x) in h.nodes
    case Finish(x) => x in h.nodes && x in h.phase && (h.phase[x].Parted? || (h.phase[x].Leaving? && h.nodes[x].origin.None?))
  }

  function Entered(h: Ledger, e: Entry): Ledger
    requires Enterable(h, e)
  {
    match e
    case New(x, buf, readonly) => Ledger(h.nodes[x := Made(readonly)], h.phase[x := Chain(buf)])
    case Attach(x, y, buf) => Ledger(Referred(h.nodes, x, y), h.phase[y := Chain(buf)])
    case Pin(x) => h.(nodes := h.nodes[x := h.nodes[x].(nocopy := true)])
    case Leave(x, buf) => Ledger(h.nodes[x := h.nodes[x].(released := h.nodes[x].released + 1)], h.phase[x := Leaving(buf)])
    case Part(x) =>
      var r := Root(h.nodes, x);
      Ledger(h.nodes[r := Drop(h.nodes[r])], h.phase[x := Parted(h.phase[x].buf)])
    case Finish(x) => Ledger(h.nodes[x := Drop(h.nodes[x])], h.phase[x := Gone])
  }

  // ---------------------------------------------------------------- every entry keeps the counts

  /** Nobody holds a reference to a node that is not there. */
  lemma NobodyHolds(h: Ledger, x: nat)
    requires Balanced(h) && x !in h.nodes
    ensures Holders(h, x) == {}
  {
    hide Reusable;
    forall y | y in h.nodes ensures !HoldsIn(h, y, x) { assert Shaped(h, y); }
  }

  /** The count of `z` follows its holders: `y` joins them, leaves them, or neither. */
  lemma CountFollows(h: Ledger, h': Ledger, z: nat, y: nat)
    requires forall u :: u != y ==> (HoldsIn(h', u, z) <==> HoldsIn(h, u, z))
    ensures |Holders(h', z)| == |Holders(h, z)| + (if HoldsIn(h', y, z) then 1 else 0) - (if HoldsIn(h, y, z) then 1 else 0)
  {
    hide Holds;
    var a, b := Holders(h, z), Holders(h', z);
    forall u ensures u in a - {y} <==> u in b - {y} {}
    SetFollows(a, b, y);
  }

  lemma SetFollows(a: set<nat>, b: set<nat>, y: nat)
    requires a - {y} == b - {y}
    ensures |b| == |a| + (if y in b then 1 else 0) - (if y in a then 1 else 0)
  {
    Without(a, y);
    Without(b, y);
  }

  lemma Without(a: set<nat>, y: nat)
    ensures |a| == |a - {y}| + (if y in a then 1 else 0)
  {
    if y in a { assert a == (a - {y}) + {y}; } else { assert a == a - {y}; }
  }

  /** A node that is not gone has a positive count, and so has the root of a live window. */
  lemma Positive(h: Ledger, x: nat)
    requires Balanced(h) && x in h.nodes && !h.phase[x].Gone?
    ensures 0 < h.nodes[x].refer && !h.nodes[x].recycled
    ensures h.nodes[x].origin.Some? && Looks(h.phase[x]) ==> var r := Root(h.nodes, x); r in h.nodes && 0 < h.nodes[r].refer && !h.nodes[r].recycled
  {
    assert Shaped(h, x) && x in Holders(h, x);
    if h.nodes[x].origin.Some? && Looks(h.phase[x]) {
      assert Shaped(h, Root(h.nodes, x)) && x in Holders(h, Root(h.nodes, x));
    }
  }

  /** The node whose references an entry changes. */
  function Actor(e: Entry): nat
  {
    if e.Attach? then e.y else e.x
  }

  lemma OthersHoldTheSame(h: Ledger, e: Entry, u: nat, z: nat)
    requires Balanced(h) && Enterable(h, e) && u != Actor(e)
    ensures HoldsIn(Entered(h, e), u, z) <==> HoldsIn(h, u, z)
  {
    if u in h.nodes { assert Shaped(h, u); }
    if e.Part? || e.Attach? { assert Shaped(h, e.x) && Shaped(h, Root(h.nodes, e.x)); }
    hide Balanced, Reusable;
  }

  lemma CountsFollow(h: Ledger, e: Entry, z: nat)
    requires Balanced(h) && Enterable(h, e)
    ensures var h', y := Entered(h, e), Actor(e);
            |Holders(h', z)| == |Holders(h, z)| + (if HoldsIn(h', y, z) then 1 else 0) - (if HoldsIn(h, y, z) then 1 else 0)
  {
    hide Balanced, Enterable, Entered, HoldsIn, Actor;
    var h', y := Entered(h, e), Actor(e);
    forall u | u != y ensures HoldsIn(h', u, z) <==> HoldsIn(h, u, z) {
      OthersHoldTheSame(h, e, u, z);
    }
    CountFollows(h, h', z, y);
  }

  /** What an entry does to the count of `z` is what it does to its holders. */
  lemma ReferFollows(h: Ledger, e: Entry, z: nat)
    requires Balanced(h) && Enterable(h, e) && z in Entered(h, e).nodes
    ensures var h', y := Entered(h, e), Actor(e);
            h'.nodes[z].refer == (if z in h.nodes then h.nodes[z].refer else 0) + (if HoldsIn(h', y, z) then 1 else 0)
                                 - (if HoldsIn(h, y, z) then 1 else 0)
  {
    if z in h.nodes { assert Shaped(h, z); }
    if e.x in h.nodes { assert Shaped(h, e.x); }
    if e.Part? || e.Attach? { assert Shaped(h, Root(h.nodes, e.x)); }
    hide Balanced, Reusable;
  }

  lemma ShapeKept(h: Ledger, e: Entry, z: nat)
    requires Balanced(h) && Enterable(h, e) && z in Entered(h, e).nodes
    ensures z in Entered(h, e).phase && Shaped(Entered(h, e), z)
  {
    hide Holders, HoldsIn;
    if z in h.nodes { assert Shaped(h, z); }
    if e.x in h.nodes { assert Shaped(h, e.x); }
    if e.Part? || e.Attach? { assert Shaped(h, Root(h.nodes, e.x)); }
    if !e.New? { Positive(h, e.x); }
    hide Balanced;
  }

  lemma SameKeys(h: Ledger, e: Entry)
    requires h.phase.Keys == h.nodes.Keys && Enterable(h, e)
    ensures Entered(h, e).phase.Keys == Entered(h, e).nodes.Keys
  {
  }

  lemma EntryKeeps(h: Ledger, e: Entry)
    requires Balanced(h) && Enterable(h, e)
    ensures Balanced(Entered(h, e))
  {
    var h' := Entered(h, e);
    SameKeys(h, e);
    forall z | z in h'.nodes
      ensures Shaped(h', z) && h'.nodes[z].refer == |Holders(h', z)|
    {
      CountsFollow(h, e, z);
      ReferFollows(h, e, z);
      ShapeKept(h, e, z);
      if z !in h.nodes { NobodyHolds(h, z); }
      hide Balanced, Enterable, Entered, HoldsIn, Actor, Holders, Shaped;
    }
  }

  /** Nodes that change hands between chains, or are cut off, hold what they held. */
  ghost predicate Handed(p: map<nat, Phase>, p': map<nat, Phase>)
  {
    p'.Keys == p.Keys && forall x :: x in p ==> p'[x] == p[x] || (Kept(p[x]) && Kept(p'[x]))
  }

  lemma HandingKeeps(h: Ledger, p': map<nat, Phase>)
    requires Balanced(h) && Handed(h.phase, p')
    ensures Balanced(h.(phase := p'))
  {
    var h' := h.(phase := p');
    forall z | z in h.nodes
      ensures Shaped(h', z) && h'.nodes[z].refer == |Holders(h', z)|
    {
      assert Shaped(h, z);
      assert Holders(h', z) == Holders(h, z);
    }
  }

  // ---------------------------------------------------------------- what the counts say

  /** The live windows on `x`. */
  ghost function Windows(h: Ledger, x: nat): set<nat>
  {
    set y | y in h.nodes && y in h.phase && h.nodes[y].origin == Some(x) && Looks(h.phase[y])
  }

  lemma HoldersAre(h: Ledger, x: nat)
    requires x in h.nodes && x in h.phase && h.nodes[x].origin != Some(x)
    ensures x !in Windows(h, x) && Holders(h, x) == Windows(h, x) + if h.phase[x].Gone? then {} else {x}
  {
    hide Looks;
  }

  /** A node's count is its own reference, if not dropped yet, and its live windows. */
  lemma ReferIsHolders(h: Ledger, x: nat)
    requires Balanced(h) && x in h.nodes
    ensures h.nodes[x].refer == (if h.phase[x].Gone? then 0 else 1) + |Windows(h, x)|
  {
    hide Holders, Windows, Reusable, Kept;
    assert Shaped(h, x);
    HoldersAre(h, x);
  }

  /** A root that is not gone and has a live window is counted at least twice. */
  lemma Shared(h: Ledger, x: nat)
    requires Balanced(h) && x in h.nodes && h.nodes[x].origin.Some? && Looks(h.phase[x])
    ensures var r := h.nodes[x].origin.value;
            r in h.nodes && r != x && h.nodes[r].origin.None? && 0 < h.nodes[r].refer && (!h.phase[r].Gone? ==> 1 < h.nodes[r].refer)
  {
    assert Shaped(h, x);
    var r := h.nodes[x].origin.value;
    ReferIsHolders(h, r);
    var w := Windows(h, r);
    assert x in w;
  }
}
