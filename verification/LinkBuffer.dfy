/** LinkBuffer as the source writes it: nodes linked by `next`, four pointers into the chain, and
    loops that move them.  Two ghost fields record the chain as a sequence of nodes and of their
    contents; the flat byte sequences are functions of those. */
module LinkBuffer {
  import opened LinkChain
  import opened LinkChainWriter
  import opened LinkChainApart
  import opened LinkChainFrames
  import opened LinkChainSteps
  import opened Waiting

  const BLOCK_1K := 1024
  const BLOCK_4K := 4 * 1024
  const PAGE_SIZE := 8 * 1024
  const MALLOC_MAX := 8 * 1024 * 1024
  const MIN_REUSE_BYTES := 64
  const BINARY_INPLACE_THRESHOLD := BLOCK_4K
  const LINK_BUFFER_CAP := BLOCK_4K

  /** Backing arrays, shared by every buffer and by the slices their users hold. */
  class Memory {
    var blocks: Blocks

    constructor ()
      ensures blocks == [[]]
    {
      blocks := [[]];
    }

    /** A new array of at least `cap` bytes, with whatever it holds. */
    method Alloc(cap: nat) returns (s: Slice)
      modifies this`blocks
      ensures |blocks| == |old(blocks)| + 1 && blocks[..|old(blocks)|] == old(blocks)
      ensures s.block == |old(blocks)| && s.lo == 0 && s.len == 0 && s.cap >= cap && InMemory(blocks, s)
    {
      var junk: seq<byte> := *;
      if |junk| < cap { junk := seq(cap, _ => 0); }
      s := Slice(|blocks|, 0, 0, |junk|);
      blocks := blocks + [junk];
    }

    /** The kernel, or a user, stores `t` through a slice. */
    method Store(d: Slice, t: seq<byte>)
      requires InMemory(blocks, d) && |t| == d.len
      modifies this`blocks
      ensures blocks == Stored(old(blocks), d, t)
    {
      var a := blocks[d.block];
      blocks := blocks[d.block := a[..d.lo] + t + a[d.lo + d.len..]];
    }

    /** copy(d, s) for slices of one length. */
    method Copy(d: Slice, s: Slice)
      requires InMemory(blocks, d) && InMemory(blocks, s) && d.len == s.len
      modifies this`blocks
      ensures blocks == Stored(old(blocks), d, Text(old(blocks), s))
    {
      var a, t := blocks[d.block], Text(blocks, s);
      blocks := blocks[d.block := a[..d.lo] + t + a[d.lo + d.len..]];
    }
  }

  class Node {
    var v: View
    var next: Node?

    constructor (v: View)
      ensures this.v == v && next == null
    {
      this.v := v;
      next := null;
    }
  }

  /** Nodes linked one after the other, the last one to `end`. */
  ghost predicate Chained(ns: seq<Node>, vs: seq<View>, end: Node?): (ok: bool)
    reads ns
    ensures ok ==> |ns| == |vs|
  {
    && |ns| == |vs|
    && (forall k :: 0 <= k < |ns| ==> ns[k].v == vs[k])
    && (forall k :: 0 < k < |ns| ==> ns[k - 1].next == ns[k])
    && (0 < |ns| ==> ns[|ns| - 1].next == end)
    && (forall j, k :: 0 <= j < k < |ns| ==> ns[j] != ns[k])
  }

  lemma ChainedPrefix(ns: seq<Node>, vs: seq<View>, end: Node?, k: nat)
    requires Chained(ns, vs, end) && k < |ns|
    ensures Chained(ns[..k + 1], vs[..k + 1], if k + 1 < |ns| then ns[k + 1] else end)
  {
  }

  lemma ChainedSuffix(ns: seq<Node>, vs: seq<View>, end: Node?, k: nat)
    requires Chained(ns, vs, end) && k <= |ns|
    ensures Chained(ns[k..], vs[k..], end)
  {
    var ms := ns[k..];
    forall j | 0 < j < |ms| ensures ms[j - 1].next == ms[j] { assert ms[j] == ns[j + k] && ms[j - 1] == ns[j + k - 1]; }
  }

  lemma ChainedJoin(ns: seq<Node>, vs: seq<View>, ms: seq<Node>, ws: seq<View>, end: Node?)
    requires 0 < |ns| && 0 < |ms| && Chained(ns, vs, ms[0]) && Chained(ms, ws, end)
    requires forall j, k :: 0 <= j < |ns| && 0 <= k < |ms| ==> ns[j] != ms[k]
    ensures Chained(ns + ms, vs + ws, end)
  {
    var xs, n := ns + ms, |ns|;
    forall k | 0 < k < |xs|
      ensures xs[k - 1].next == xs[k]
    {
      if k < n { assert xs[k] == ns[k] && xs[k - 1] == ns[k - 1]; }
      else if k == n { assert xs[k] == ms[0] && xs[k - 1] == ns[n - 1]; }
      else { assert xs[k] == ms[k - n] && xs[k - 1] == ms[k - n - 1]; }
    }
  }

  /** The last node of a chain is linked to `x`. */
  method Relink(nd: Node, x: Node?, ghost ns: seq<Node>, ghost vs: seq<View>, ghost end: Node?)
    requires Chained(ns, vs, end) && 0 < |ns| && ns[|ns| - 1] == nd
    modifies nd`next
    ensures Chained(ns, vs, x)
  {
    nd.next := x;
  }

  /** No node is in both lists. */
  ghost predicate Distinct(ns: seq<Node>, ms: seq<Node>)
  {
    forall i, j :: 0 <= i < |ns| && 0 <= j < |ms| ==> ns[i] != ms[j]
  }

  /** first .. last, which are `ms`, are linked in between `ns`, which ends with `nd`, and `rest`. */
  method Interlink(nd: Node, first: Node, last: Node, nx: Node?, ghost ns: seq<Node>, ghost vs: seq<View>,
                   ghost ms: seq<Node>, ghost ws: seq<View>, ghost rest: seq<Node>, ghost us: seq<View>)
    requires Chained(ns, vs, nx) && 0 < |ns| && ns[|ns| - 1] == nd
    requires Chained(ms, ws, null) && 0 < |ms| && ms[0] == first && ms[|ms| - 1] == last
    requires Chained(rest, us, null) && nx == if rest == [] then null else rest[0]
    requires Distinct(ns, ms) && Distinct(ns, rest) && Distinct(ms, rest)
    modifies nd`next, last`next
    ensures Chained(ns + ms + rest, vs + ws + us, null)
  {
    hide Chained;
    Relink(last, nx, ms, ws, null);
    Relink(nd, first, ns, vs, nx);
    ChainedJoin(ns, vs, ms, ws, nx);
    if |rest| == 0 {
      assert ns + ms + rest == ns + ms && vs + ws + us == vs + ws;
    } else {
      assert Distinct(ns + ms, rest);
      ChainedJoin(ns + ms, vs + ws, rest, us, null);
    }
  }

  lemma ChainedDistinct(ns: seq<Node>, vs: seq<View>, k: nat)
    requires Chained(ns, vs, null) && k <= |ns|
    ensures Distinct(ns[..k], ns[k..])
  {
  }

  lemma ChainedMiddle(ns: seq<Node>, vs: seq<View>, r: nat, w: nat)
    requires Chained(ns, vs, null) && r <= w < |ns|
    ensures Chained(ns[r..w + 1], vs[r..w + 1], if w + 1 < |ns| then ns[w + 1] else null)
  {
    hide Chained;
    ChainedPrefix(ns, vs, null, w);
    var front, us := ns[..w + 1], vs[..w + 1];
    ChainedSuffix(front, us, if w + 1 < |ns| then ns[w + 1] else null, r);
    assert front[r..] == ns[r..w + 1] && us[r..] == vs[r..w + 1];
  }

  lemma DistinctParts(ns: seq<Node>, w: nat, ms: seq<Node>, r: nat, z: nat)
    requires Distinct(ns, ms) && w < |ns| && r <= z < |ms|
    ensures Distinct(ns[..w + 1], ms[r..z + 1])
  {
  }

  /** nd.next = first, last.next = nil: two chains become one. */
  method LinkTwo(nd: Node, first: Node, last: Node, ghost ns: seq<Node>, ghost vs: seq<View>, ghost x: Node?,
                 ghost ms: seq<Node>, ghost ws: seq<View>, ghost y: Node?)
    requires Chained(ns, vs, x) && 0 < |ns| && ns[|ns| - 1] == nd
    requires Chained(ms, ws, y) && 0 < |ms| && ms[0] == first && ms[|ms| - 1] == last && Distinct(ns, ms)
    modifies nd`next, last`next
    ensures Chained(ns + ms, vs + ws, null)
  {
    hide Chained;
    Relink(nd, first, ns, vs, x);
    Relink(last, null, ms, ws, y);
    ChainedJoin(ns, vs, ms, ws, null);
  }

  lemma ChainedTwo(a: Node, b: Node)
    requires a.next == b && b.next == null && a != b
    ensures Chained([a, b], [a.v, b.v], null)
  {
  }

  lemma ChainedOne(nd: Node)
    ensures Chained([nd], [nd.v], nd.next)
  {
  }

  /** newLinkBufferNode: sizes of zero and less give a read-only node without memory. */
  method NewNode(mem: Memory, size: int) returns (nd: Node)
    requires 0 < |mem.blocks|
    modifies mem`blocks
    ensures fresh(nd) && nd.next == null && Blank(nd.v) && Fits(mem.blocks, nd.v) && !nd.v.nocopy
    ensures if size <= 0 then mem.blocks == old(mem.blocks) && nd.v.buf == NIL && nd.v.readonly
            else !nd.v.readonly && nd.v.buf.cap >= size && nd.v.buf.block == |old(mem.blocks)|
                 && Grown(old(mem.blocks), mem.blocks)
  {
    if size <= 0 {
      nd := new Node(View(NIL, 0, 0, true, false));
    } else {
      var s := mem.Alloc(if size < LINK_BUFFER_CAP then LINK_BUFFER_CAP else size);
      nd := new Node(View(s, 0, 0, false, false));
    }
  }

  /** bytes.IndexByte on s[skip:], counted from the start of s. */
  method FindByte(s: seq<byte>, skip: nat, c: byte) returns (i: int)
    requires skip <= |s|
    ensures i == -1 || (skip <= i < |s| && s[i] == c)
    ensures forall j :: skip <= j < (if i == -1 then |s| else i) ==> s[j] != c
  {
    i := skip;
    while i < |s|
      invariant skip <= i <= |s|
      invariant forall j :: skip <= j < i ==> s[j] != c
    {
      if s[i] == c { return; }
      i := i + 1;
    }
    i := -1;
  }

  /** `t` holds no `c` between two places; so does `text`, in which it lies at `pos`. */
  lemma SearchStep(text: seq<byte>, pos: nat, t: seq<byte>, i: nat, e: nat, c: byte)
    requires pos + |t| <= |text| && text[pos..pos + |t|] == t && i <= e <= |t|
    requires forall j :: i <= j < e ==> t[j] != c
    ensures forall j :: pos + i <= j < pos + e ==> text[j] != c
    ensures e < |t| ==> text[pos + e] == t[e]
  {
    forall j | pos <= j < pos + |t| ensures text[j] == t[j - pos] { assert text[pos..pos + |t|][j - pos] == text[j]; }
  }

  /** What a walker sees of node `k` when `n` is its size or all that is left. */
  lemma PeekNode(m: Blocks, vs: seq<View>, k: nat, f: nat, n: nat)
    requires AllFit(m, vs) && k < |vs| && k <= f && 0 < |Readable(m, vs, k, f)|
    requires n == if vs[k].buf.len - vs[k].off >= |Readable(m, vs, k, f)| then |Readable(m, vs, k, f)| else vs[k].buf.len - vs[k].off
    ensures vs[k].buf.block < |m| && vs[k].off <= vs[k].buf.len && vs[k].buf.lo + vs[k].off + n <= |m[vs[k].buf.block]|
    ensures m[vs[k].buf.block][vs[k].buf.lo + vs[k].off..vs[k].buf.lo + vs[k].off + n] == Readable(m, vs, k, f)[..n]
    ensures n < |Readable(m, vs, k, f)| ==>
              k < f && k + 1 < |vs| && Readable(m, vs, k + 1, f) == Readable(m, vs, k, f)[n..]
    ensures k + 1 <= f || n == |Readable(m, vs, k, f)|
  {
    OnlyNode(m, vs, k, f);
    if k < f { WalkOn(m, vs, k, f); }
    assert Ready(m, vs[k])[..n] == m[vs[k].buf.block][vs[k].buf.lo + vs[k].off..vs[k].buf.lo + vs[k].off + n];
  }

  /** Only array `b` and new arrays may have changed. */
  ghost predicate OnlyCache(m: Blocks, m': Blocks, b: nat)
  {
    |m| <= |m'| && forall k :: 0 <= k < |m| && k != b ==> m'[k] == m[k]
  }

  lemma OnlyCacheSteps(m: Blocks, m': Blocks, m'': Blocks, b: nat, b': nat)
    requires Extends(m, m') && (b' == b || b' >= |m|) && (m'' == m' || OnlyArray(m', m'', b'))
    ensures OnlyCache(m, m'', b)
  {
    forall k | 0 <= k < |m| && k != b
      ensures m''[k] == m[k]
    {
      assert m'[..|m|][k] == m'[k];
    }
  }

  /** What is readable from node `k` on starts with its own bytes. */
  lemma WalkNode(m: Blocks, vs: seq<View>, k: nat, f: nat)
    requires AllFit(m, vs) && k < |vs| && k <= f
    ensures var text := Readable(m, vs, k, f);
            && Ready(m, vs[k]) <= text
            && (k < f && k + 1 < |vs| ==> Readable(m, vs, k + 1, f) == text[|Ready(m, vs[k])|..])
            && (k == f || k + 1 == |vs| ==> text == Ready(m, vs[k]))
  {
    OnlyNode(m, vs, k, f);
    if k < f { WalkOn(m, vs, k, f); }
    assert k + 1 == |vs| ==> Readable(m, vs, k, f) == Ready(m, vs[k]) + [];
  }

  /** A prefix of `text` grows by the part of the node at `scanned` that comes next. */
  lemma PrefixGrows(text: seq<byte>, was: seq<byte>, scanned: nat, start: nat, ready: seq<byte>, n: nat)
    requires was <= text && |was| == scanned + start && ready <= text[scanned..] && start + n <= |ready|
    ensures was + ready[start..start + n] == text[..|was| + n]
  {
    assert ready == text[scanned..scanned + |ready|];
    assert ready[start..start + n] == text[|was|..|was| + n];
  }

  lemma SameRest(m: Blocks, m': Blocks, vs: seq<View>, k: nat, f: nat)
    requires AllFit(m, vs) && SameArrays(m, m', vs)
    ensures AllFit(m', vs) && Readable(m', vs, k, f) == Readable(m, vs, k, f)
  {
    SameArraysFrame(m, m', vs, k, if f < |vs| then f + 1 else |vs|, |vs|);
  }

  lemma SubReady(m: Blocks, v: View, start: nat, n: nat)
    requires Fits(m, v) && start + n <= v.buf.len - v.off
    ensures var s := Slice(v.buf.block, v.buf.lo + v.off + start, n, n);
            InMemory(m, s) && Text(m, s) == Ready(m, v)[start..start + n]
  {
    CutCut(m[v.buf.block], v.buf.lo + v.off, v.buf.lo + v.buf.len, start, start + n);
  }

  /** The bytes of a list of slices, one after the other. */
  ghost function Joined(m: Blocks, ps: seq<Slice>): seq<byte>
    requires forall i :: 0 <= i < |ps| ==> InMemory(m, ps[i])
  {
    if ps == [] then [] else Joined(m, ps[..|ps| - 1]) + Text(m, ps[|ps| - 1])
  }

  lemma OneWindow(m: Blocks, v: View)
    requires Fits(m, v)
    ensures Flat(m, [v], 0, 1) == Ready(m, v) && ReadyLen([v], 0, 1) == v.buf.len - v.off
  {
    assert Flat(m, [v], 1, 1) == [] && ReadyLen([v], 1, 1) == 0;
  }

  /** No node was lost, and what was added is new. */
  twostate predicate GrownNodes(ns: seq<Node>, new ns': seq<Node>)
  {
    |ns| <= |ns'| && ns'[..|ns|] == ns && forall k :: |ns| <= k < |ns'| ==> fresh(ns'[k])
  }

  lemma DeliveredOn(before: seq<byte>, rest: seq<byte>, k: nat)
    requires k <= |rest|
    ensures (before + rest[..k]) + rest[k..] == before + rest
  {
    Assoc(before, rest[..k], rest[k..]);
    assert rest[..k] + rest[k..] == rest;
  }

  /** What one pass over the readable bytes finds is what it finds in the stream. */
  lemma FoundHere(all: seq<byte>, text: seq<byte>, rest: seq<byte>, c: byte, n: nat, i: int)
    requires text + rest == all && n <= |text| && (i == -1 || (n <= i < |text| && text[i] == c))
    requires forall j :: n <= j < (if i == -1 then |text| else i) ==> text[j] != c
    ensures i == First(all[..|text|], c, n)
  {
    assert all[..|text|] == text;
  }

  /** A line and what is left of the readable bytes, against the whole stream. */
  lemma TextBeside(all: seq<byte>, text: seq<byte>, k: nat, rest: seq<byte>)
    requires text + rest == all && k <= |text|
    ensures text[..k] == all[..k] && text[..k] + text[k..] + rest == all
  {
    assert text[..k] + text[k..] == text;
  }

  /** A line is the beginning of the stream, and so are its own beginnings. */
  lemma LineParts(all: seq<byte>, t: seq<byte>, seen: nat)
    requires t <= all
    ensures 0 < |t| ==> t[|t| - 1] == all[|t| - 1] && t[..|t| - 1] == all[..|t| - 1]
    ensures seen <= |t| ==> t[..seen] == all[..seen]
  {
  }

  lemma NilText(m: Blocks)
    ensures 0 < |m| ==> InMemory(m, NIL) && Text(m, NIL) == []
  {
  }

  /** Whatever is not an old node is new. */
  twostate predicate GrownOrOld(ns: seq<Node>, new ns': seq<Node>)
  {
    forall k :: 0 <= k < |ns'| ==> ns'[k] in ns || fresh(ns'[k])
  }

  lemma JoinedNone(m: Blocks)
    ensures Joined(m, []) == []
  {
  }

  lemma JoinedMore(m: Blocks, ps: seq<Slice>, p: Slice)
    requires (forall i :: 0 <= i < |ps| ==> InMemory(m, ps[i])) && InMemory(m, p)
    ensures Joined(m, ps + [p]) == Joined(m, ps) + Text(m, p)
  {
    assert (ps + [p])[..|ps|] == ps;
  }

  lemma JoinStep(front: seq<byte>, t: seq<byte>, rest: seq<byte>, text: seq<byte>)
    requires front + rest == text && t <= rest
    ensures (front + t) + rest[|t|..] == text
    ensures |t| == 0 ==> rest[|t|..] == rest
  {
    assert rest == t + rest[|t|..];
  }

  lemma NilPrefix(m: Blocks, text: seq<byte>)
    requires 0 < |m|
    ensures InMemory(m, NIL) && Text(m, NIL) <= text
  {
  }

  class LinkBuffer {
    const mem: Memory
    var length: int
    var mallocSize: int
    var head: Node?
    var read: Node?
    var flush: Node?
    var write: Node?
    var caches: seq<Slice>
    var cachePeek: Slice
    ghost var nodes: seq<Node>
    ghost var views: seq<View>
    ghost var ri: nat
    ghost var fi: nat
    ghost var wi: nat

    ghost function At(k: nat): Node?
      reads this`nodes
    {
      if k < |nodes| then nodes[k] else null
    }

    /** The ghost chain is the linked chain. */
    ghost predicate Linked(): (ok: bool)
      reads this`nodes, this`views, this`head, this`read, this`flush, this`write, this`ri, this`fi, this`wi, nodes
      ensures ok ==> |nodes| == |views|
    {
      && Chained(nodes, views, null)
      && head == At(0) && read == At(ri) && flush == At(fi) && write == At(wi)
    }

    ghost predicate Shape()
      reads this`nodes, this`views, this`head, this`read, this`flush, this`write, this`ri, this`fi, this`wi, nodes, mem
    {
      Linked() && Sound(mem.blocks, views, ri, fi, wi)
    }

    ghost function Bytes(): seq<byte>
      requires AllFit(mem.blocks, views)
      reads this`views, this`ri, this`fi, mem
    {
      Readable(mem.blocks, views, ri, fi)
    }

    ghost function Tail(): seq<byte>
      requires AllFit(mem.blocks, views) && OpenFrom(views, fi)
      reads this`views, this`fi, mem
    {
      Pending(mem.blocks, views, fi)
    }

    /** The peek cache lives in an array of its own and holds a prefix of the readable bytes. */
    ghost predicate PeekAgrees()
      requires AllFit(mem.blocks, views)
      reads this, mem
    {
      && InMemory(mem.blocks, cachePeek) && Text(mem.blocks, cachePeek) <= Bytes()
      && (cachePeek.cap > 0 ==> 0 < cachePeek.block && Away(views, cachePeek.block))
    }

    ghost predicate Valid()
      reads this, nodes, mem
    {
      Shape() && length == ReadyLen(views, ri, |views|) && PeekAgrees()
    }

    constructor (mem: Memory, size: int)
      requires 0 < |mem.blocks|
      modifies mem`blocks
      ensures this.mem == mem && Valid() && wi < |views| && mallocSize == 0 && fresh(nodes)
      ensures Bytes() == [] && Tail() == []
      ensures Own(views, fi) && Plain(views, fi) && SealedTo(views, fi)
      ensures if size <= 0 then mem.blocks == old(mem.blocks) else Grown(old(mem.blocks), mem.blocks)
    {
      var node := NewNode(mem, size);
      this.mem := mem;
      length, mallocSize := 0, 0;
      head, read, flush, write := node, node, node, node;
      caches, cachePeek := [], NIL;
      nodes, views, ri, fi, wi := [node], [node.v], 0, 0, 0;
      new;
      OnlyNode(mem.blocks, views, 0, 0);
    }

    /** The buffer Slice starts to build: one window, and no writer. */
    constructor Windows(mem: Memory, first: Node)
      requires first.next == null
      ensures this.mem == mem && Linked() && nodes == [first] && views == [first.v] && ri == 0 && fi == 0 && wi == 1
      ensures length == 0 && mallocSize == 0 && caches == [] && cachePeek == NIL
    {
      this.mem := mem;
      length, mallocSize := 0, 0;
      head, read, flush, write := first, first, first, null;
      caches, cachePeek := [], NIL;
      nodes, views, ri, fi, wi := [first], [first.v], 0, 0, 1;
    }

    /** `n` readable bytes are gone; the writer's side and all memory there was are untouched. */
    twostate predicate Took(n: nat)
      requires old(Valid())
      reads this, nodes, mem
    {
      && Valid() && nodes == old(nodes) && fi == old(fi) && wi == old(wi) && mallocSize == old(mallocSize)
      && Consumed(old(views), views, fi) && Extends(old(mem.blocks), mem.blocks)
      && n <= |old(Bytes())| && Bytes() == old(Bytes())[n..] && Tail() == old(Tail())
    }

    // -------------------------------------------------------------- primitives

    method Update(nd: Node, ghost k: nat, v: View)
      requires Linked() && k < |nodes| && nodes[k] == nd
      modifies nd`v, this`views
      ensures Linked() && views == old(views)[k := v]
    {
      nd.v := v;
      views := views[k := v];
    }

    /** read = read.next */
    method Forward()
      requires Linked() && ri < |nodes|
      modifies this`read, this`ri
      ensures Linked() && ri == old(ri) + 1
    {
      read := read.next;
      ri := ri + 1;
    }

    method ReadNode() returns (nd: Node)
      requires Linked() && ri < |nodes|
      ensures nd == nodes[ri] && nd.v == views[ri]
    {
      nd := read;
    }

    method ReadLen() returns (l: nat)
      requires Shape() && ri < |views|
      ensures l == views[ri].buf.len - views[ri].off
    {
      hide BlankFrom, OpenFrom;
      l := read.v.buf.len - read.v.off;
    }

    /** isSingleNode: moves to the first node that is not empty. */
    method IsSingleNode(readN: int) returns (single: bool)
      requires Shape() && 0 < readN <= |Bytes()|
      modifies this`read, this`ri
      ensures Shape() && Bytes() == old(Bytes()) && old(ri) <= ri < |views|
      ensures ReadyLen(views, ri, |views|) == old(ReadyLen(views, ri, |views|))
      ensures 0 < views[ri].buf.len - views[ri].off
      ensures single == (views[ri].buf.len - views[ri].off >= readN)
    {
      hide Sound, Linked, Readable, ReadyLen, AllFit;
      NotAtEnd(mem.blocks, views, ri, fi, wi);
      var l: nat := ReadLen();
      var last := AtFlush();
      while l == 0 && !last
        invariant Shape() && Bytes() == old(Bytes()) && old(ri) <= ri < |views|
        invariant ReadyLen(views, ri, |views|) == old(ReadyLen(views, ri, |views|))
        invariant l == views[ri].buf.len - views[ri].off && last == (ri == fi)
        decreases |views| - ri
      {
        StepSound(mem.blocks, views, ri, fi, wi);
        Forward();
        NotAtEnd(mem.blocks, views, ri, fi, wi);
        l := ReadLen();
        last := AtFlush();
      }
      OnlyNode(mem.blocks, views, ri, fi);
      single := l >= readN;
    }

    method AtFlush() returns (same: bool)
      requires Linked() && ri <= fi <= |nodes|
      ensures same == (ri == fi)
    {
      same := read == flush;
    }

    /** node.Next(n) on the read node: `n` bytes, without copying them. */
    method Take(n: nat) returns (p: Slice)
      requires Shape() && ri < |views| && n <= views[ri].buf.len - views[ri].off
      modifies this`views, nodes
      ensures Shape() && Consumed(old(views), views, fi)
      ensures views == old(views)[ri := old(views)[ri].(off := old(views)[ri].off + n)]
      ensures n <= |old(Bytes())| && Bytes() == old(Bytes())[n..]
      ensures InMemory(mem.blocks, p) && Text(mem.blocks, p) == old(Bytes())[..n]
      ensures p == Slice(old(views)[ri].buf.block, old(views)[ri].buf.lo + old(views)[ri].off, n, n)
      ensures ReadyLen(views, ri, |views|) == old(ReadyLen(views, ri, |views|)) - n
    {
      hide Linked, Sound, Readable, ReadyLen, AllFit, Consumed, OpenFrom;
      TakeSound(mem.blocks, views, ri, fi, wi, n);
      var nd := ReadNode();
      var v := nd.v;
      p := Slice(v.buf.block, v.buf.lo + v.off, n, n);
      Update(nd, ri, v.(off := v.off + n));
    }

    /** copy(p[k:], read.Next(n)) */
    method MoveOut(p: Slice, k: nat, n: nat)
      requires Shape() && ri < |views| && n <= views[ri].buf.len - views[ri].off
      requires InMemory(mem.blocks, p) && k + n <= p.len && Away(views, p.block)
      modifies this`views, nodes, mem`blocks
      ensures Shape() && Consumed(old(views), views, fi) && OnlyArray(old(mem.blocks), mem.blocks, p.block)
      ensures views == old(views)[ri := old(views)[ri].(off := old(views)[ri].off + n)]
      ensures n <= |old(Bytes())| && Bytes() == old(Bytes())[n..]
      ensures InMemory(mem.blocks, p) && Text(mem.blocks, p)[..k + n] == old(Text(mem.blocks, p)[..k] + Bytes()[..n])
      ensures ReadyLen(views, ri, |views|) == old(ReadyLen(views, ri, |views|)) - n
    {
      hide Linked, Sound, Readable, ReadyLen, AllFit, Consumed, OpenFrom, Away, Stored, Text, OnlyArray;
      var s := Take(n);
      ghost var m := mem.blocks;
      assert Away(views, p.block) by { ConsumedAway(old(views), views, fi, p.block); }
      FillPart(m, p, k, Text(m, s));
      mem.Copy(Part(p, k, n), s);
      AwaySame(m, mem.blocks, views, p.block);
      ElsewhereSound(m, mem.blocks, views, ri, fi, wi);
    }

    /** The copying loop of Next and readBinary. */
    method CopyOut(p: Slice, n: nat)
      requires Shape() && InMemory(mem.blocks, p) && p.len == n && Away(views, p.block) && n <= |Bytes()|
      modifies this`read, this`ri, this`views, nodes, mem`blocks
      ensures Shape() && Consumed(old(views), views, fi) && OnlyArray(old(mem.blocks), mem.blocks, p.block)
      ensures InMemory(mem.blocks, p) && Text(mem.blocks, p) == old(Bytes())[..n] && Bytes() == old(Bytes())[n..]
      ensures ReadyLen(views, ri, |views|) == old(ReadyLen(views, ri, |views|)) - n
    {
      hide Linked, Sound, Readable, ReadyLen, AllFit, Consumed, OpenFrom, Away, Stored, OnlyArray;
      var ack, pIdx := n, 0;
      ConsumedRefl(views, fi);
      OnlyArrayRefl(mem.blocks, p.block);
      while ack > 0
        invariant 0 <= pIdx && 0 <= ack && pIdx + ack == n && Shape()
        invariant Consumed(old(views), views, fi) && OnlyArray(old(mem.blocks), mem.blocks, p.block)
        invariant Away(views, p.block) && InMemory(mem.blocks, p)
        invariant Text(mem.blocks, p)[..pIdx] == old(Bytes())[..pIdx] && Bytes() == old(Bytes())[pIdx..]
        invariant ReadyLen(views, ri, |views|) == old(ReadyLen(views, ri, |views|)) - pIdx
        decreases ack, |views| - ri
      {
        NotAtEnd(mem.blocks, views, ri, fi, wi);
        var l: nat := ReadLen();
        var k := if l >= ack then ack else l;
        ghost var before, vs, m := Bytes(), views, mem.blocks;
        if k > 0 {
          MoveOut(p, pIdx, k);
          ConsumedTrans(old(views), vs, views, fi);
          ConsumedAway(vs, views, fi, p.block);
          OnlyArrayTrans(old(mem.blocks), m, mem.blocks, p.block);
          CutAgain(old(Bytes()), pIdx, k);
        }
        pIdx := pIdx + k;
        if l >= ack { ack := 0; break; }
        OnlyNode(m, vs, ri, fi);
        StepSound(mem.blocks, views, ri, fi, wi);
        Forward();
        ack := ack - l;
      }
      assert Text(mem.blocks, p)[..n] == Text(mem.blocks, p);
    }

    // -------------------------------------------------------------- reader

    /** recalLen: reading anything empties the peek cache. */
    method RecalLen(delta: int)
      modifies this`length, this`cachePeek
      ensures length == old(length) + delta
      ensures cachePeek == if delta < 0 then old(cachePeek).(len := 0) else old(cachePeek)
    {
      if delta < 0 && cachePeek.len > 0 { cachePeek := cachePeek.(len := 0); }
      length := length + delta;
    }

    /** What a reader has done by the time it returns. */
    twostate lemma TookNow(n: nat)
      requires old(Valid()) && Shape() && nodes == old(nodes) && fi == old(fi) && wi == old(wi) && mallocSize == old(mallocSize)
      requires Consumed(old(views), views, fi) && Extends(old(mem.blocks), mem.blocks)
      requires n <= |old(Bytes())| && Bytes() == old(Bytes())[n..]
      requires cachePeek == old(cachePeek).(len := 0) && length == old(length) - n
      requires ReadyLen(views, ri, |views|) == old(ReadyLen(views, ri, |views|)) - n
      ensures Took(n) && (old(Settled(views, fi)) ==> Settled(views, fi))
    {
      hide Linked, Sound, Readable, ReadyLen, AllFit, Consumed, OpenFrom, Away, Settled, Pending;
      PeekReset(old(mem.blocks), mem.blocks, cachePeek, old(views), views, fi);
      ExtendsSame(old(mem.blocks), mem.blocks, old(views));
      ElsewhereSound(old(mem.blocks), mem.blocks, old(views), old(ri), fi, wi);
      ConsumedKeeps(mem.blocks, old(views), views, fi, wi);
    }

    /** The bytes lie in more than one node: copy them together. */
    method Gather(n: nat) returns (p: Slice)
      requires Shape() && n <= |Bytes()|
      modifies this`read, this`ri, this`views, nodes, mem`blocks
      ensures Shape() && Consumed(old(views), views, fi) && Extends(old(mem.blocks), mem.blocks)
      ensures p.block == |old(mem.blocks)| && InMemory(mem.blocks, p) && Text(mem.blocks, p) == old(Bytes())[..n] && Bytes() == old(Bytes())[n..]
      ensures ReadyLen(views, ri, |views|) == old(ReadyLen(views, ri, |views|)) - n
    {
      hide Linked, Sound, Readable, ReadyLen, AllFit, Consumed, OpenFrom, Away, Stored, OnlyArray, Pending, Text;
      p := mem.Alloc(n);
      p := p.(len := n);
      ghost var m := mem.blocks;
      ExtendsSame(old(mem.blocks), m, views);
      ElsewhereSound(old(mem.blocks), m, views, ri, fi, wi);
      NewAway(old(mem.blocks), views);
      CopyOut(p, n);
      ExtendsFilled(old(mem.blocks), m, mem.blocks);
    }

    /** The first `n` readable bytes, in place if one node holds them, else copied together. */
    method Next(n: int) returns (p: Slice, ok: bool)
      requires Valid() && Settled(views, fi)
      modifies this, nodes, mem`blocks
      ensures ok == (n <= |old(Bytes())|) && Settled(views, fi)
      ensures if 0 < n && ok then Took(n) && InMemory(mem.blocks, p) && Text(mem.blocks, p) == old(Bytes())[..n]
              else Took(0) && p == NIL
    {
      hide Linked, Sound, Readable, ReadyLen, AllFit, Consumed, OpenFrom, Away, Extends, Settled, Pending, Text, PeekAgrees;
      SettledLen(mem.blocks, views, ri, fi);
      if n <= 0 || length < n {
        ConsumedRefl(views, fi);
        ExtendsRefl(mem.blocks);
        return NIL, n <= 0;
      }
      RecalLen(-n);
      var single := IsSingleNode(n);
      ghost var vs := views;
      if single {
        p := Take(n);
        ExtendsRefl(mem.blocks);
      } else {
        p := Gather(n);
        if BLOCK_1K < n <= MALLOC_MAX { caches := caches + [p]; }
      }
      TookNow(n);
      ok := true;
    }

    /** Copied out of the read node into an array of its own. */
    method CopyOne(n: nat) returns (p: Slice)
      requires Shape() && ri < |views| && n <= views[ri].buf.len - views[ri].off
      modifies this`views, nodes, mem`blocks
      ensures Shape() && Consumed(old(views), views, fi) && Extends(old(mem.blocks), mem.blocks)
      ensures p.block == |old(mem.blocks)| && InMemory(mem.blocks, p)
      ensures n <= |old(Bytes())| && Text(mem.blocks, p) == old(Bytes())[..n] && Bytes() == old(Bytes())[n..]
      ensures ReadyLen(views, ri, |views|) == old(ReadyLen(views, ri, |views|)) - n
    {
      hide Linked, Sound, Readable, ReadyLen, AllFit, Consumed, OpenFrom, Away, Stored, OnlyArray, Pending;
      p := mem.Alloc(n);
      p := p.(len := n);
      ghost var m := mem.blocks;
      ExtendsSame(old(mem.blocks), m, views);
      ElsewhereSound(old(mem.blocks), m, views, ri, fi, wi);
      NewAway(old(mem.blocks), views);
      MoveOut(p, 0, n);
      ExtendsFilled(old(mem.blocks), m, mem.blocks);
    }

    /** Like Next, but what is returned outlives Release: it is either an array of its own or lies in
        a node marked so that its memory is never recycled. */
    method ReadBinary(n: int, alwaysNoCopyRead: bool) returns (p: Slice, ok: bool)
      requires Valid() && Settled(views, fi)
      modifies this, nodes, mem`blocks
      ensures ok == (n <= |old(Bytes())|) && Settled(views, fi)
      ensures if 0 < n && ok then Took(n) && InMemory(mem.blocks, p) && Text(mem.blocks, p) == old(Bytes())[..n]
              else Took(0) && p == NIL
      ensures 0 < n && ok ==> p.block == |old(mem.blocks)| || Kept(p.block)
    {
      hide Linked, Sound, Readable, ReadyLen, AllFit, Consumed, OpenFrom, Away, Extends, Settled, Pending, Text, PeekAgrees;
      SettledLen(mem.blocks, views, ri, fi);
      if n <= 0 || length < n {
        ConsumedRefl(views, fi);
        ExtendsRefl(mem.blocks);
        return NIL, n <= 0;
      }
      RecalLen(-n);
      var single := IsSingleNode(n);
      if single {
        var nd := ReadNode();
        if !nd.v.readonly && (nd.v.nocopy || (alwaysNoCopyRead && n >= MIN_REUSE_BYTES)) {
          MarkSound(mem.blocks, views, ri, fi, wi);
          ghost var vs := views;
          Update(nd, ri, nd.v.(nocopy := true));
          ghost var vs' := views;
          p := Take(n);
          assert views[ri].nocopy && !views[ri].readonly && views[ri].buf.block == p.block;
          ConsumedTrans(vs, vs', views, fi);
          ExtendsRefl(mem.blocks);
        } else {
          p := CopyOne(n);
        }
      } else {
        p := Gather(n);
      }
      TookNow(n);
      ok := true;
    }

    /** Array `b` belongs to a node that was marked for reading without copying. */
    ghost predicate Kept(b: nat)
      reads this`views
    {
      exists k :: 0 <= k < |views| && views[k].nocopy && !views[k].readonly && views[k].buf.block == b
    }

    /** Walk to the node in which the last of the next `n` bytes lies; `ack` of them are left there. */
    method WalkTo(n: nat) returns (ack: nat)
      requires Shape() && 0 < n <= |Bytes()|
      modifies this`read, this`ri
      ensures Shape() && ri < |views| && 0 < ack <= n && ack <= views[ri].buf.len - views[ri].off
      ensures Bytes() == old(Bytes())[n - ack..]
      ensures ReadyLen(views, ri, |views|) == old(ReadyLen(views, ri, |views|)) - (n - ack)
    {
      hide Linked, Sound, Readable, ReadyLen, AllFit, OpenFrom;
      ack := n;
      NotAtEnd(mem.blocks, views, ri, fi, wi);
      var l: nat := ReadLen();
      while l < ack
        invariant 0 < ack <= n && Shape() && ri < |views| && Bytes() == old(Bytes())[n - ack..]
        invariant ReadyLen(views, ri, |views|) == old(ReadyLen(views, ri, |views|)) - (n - ack)
        invariant l == views[ri].buf.len - views[ri].off
        decreases |views| - ri
      {
        PassSound(mem.blocks, views, ri, fi, wi, ack);
        Forward();
        ack := ack - l;
        NotAtEnd(mem.blocks, views, ri, fi, wi);
        l := ReadLen();
      }
    }

    method ReadByte() returns (b: byte, ok: bool)
      requires Valid() && Settled(views, fi)
      modifies this, nodes
      ensures ok == (0 < |old(Bytes())|) && Settled(views, fi)
      ensures if ok then Took(1) && b == old(Bytes())[0] else Took(0)
    {
      hide Linked, Sound, Readable, ReadyLen, AllFit, Consumed, OpenFrom, Away, Extends, Settled, Pending, PeekAgrees;
      SettledLen(mem.blocks, views, ri, fi);
      ConsumedRefl(views, fi);
      ExtendsRefl(mem.blocks);
      if length < 1 { return 0, false; }
      RecalLen(-1);
      var ack := WalkTo(1);
      var p := Take(ack);
      b := mem.blocks[p.block][p.lo];
      assert b == Text(mem.blocks, p)[0];
      TookNow(1);
      ok := true;
    }

    method Skip(n: int) returns (ok: bool)
      requires Valid() && Settled(views, fi)
      modifies this, nodes
      ensures ok == (n <= |old(Bytes())|) && Settled(views, fi)
      ensures Took(if 0 < n && ok then n else 0)
    {
      hide Linked, Sound, Readable, ReadyLen, AllFit, Consumed, OpenFrom, Away, Extends, Settled, Pending, PeekAgrees;
      SettledLen(mem.blocks, views, ri, fi);
      ConsumedRefl(views, fi);
      ExtendsRefl(mem.blocks);
      if n <= 0 || length < n { return n <= 0; }
      RecalLen(-n);
      var ack := WalkTo(n);
      var _ := Take(ack);
      TookNow(n);
      ok := true;
    }

    // -------------------------------------------------------------- searching and peeking

    method NodeView(nd: Node, ghost k: nat) returns (v: View)
      requires Shape() && k < |nodes| && nodes[k] == nd
      ensures v == views[k] && Fits(mem.blocks, v)
    {
      hide OpenFrom, BlankFrom;
      v := nd.v;
    }

    method NodeNext(nd: Node, ghost k: nat) returns (nx: Node?)
      requires Linked() && k < |nodes| && nodes[k] == nd
      ensures nx == At(k + 1)
    {
      nx := nd.next;
    }

    /** One turn of indexByte: search the `n` bytes that node `k` holds of `text`, from `skips` on. */
    method SearchNode(v: View, ghost k: nat, n: nat, skips: nat, c: byte, ghost text: seq<byte>, ghost pos: nat) returns (i: int)
      requires Shape() && k < |views| && k <= fi && v == views[k] && skips < n && pos < |text|
      requires Readable(mem.blocks, views, k, fi) == text[pos..]
      requires n == if v.buf.len - v.off >= |text| - pos then |text| - pos else v.buf.len - v.off
      ensures i == -1 || (skips <= i < n && text[pos + i] == c)
      ensures forall j :: pos + skips <= j < pos + (if i == -1 then n else i) ==> text[j] != c
    {
      hide Linked, Sound, Readable, AllFit;
      PeekNode(mem.blocks, views, k, fi, n);
      var t := mem.blocks[v.buf.block][v.buf.lo + v.off..v.buf.lo + v.off + n];
      i := FindByte(t, skips, c);
      CutAgain(text, pos, n);
      SearchStep(text, pos, t, skips, if i >= 0 then i else n, c);
    }

    /** indexByte: the least index from `skip` on that holds `c`, or -1. */
    method IndexByte(c: byte, skip: nat) returns (i: int)
      requires Valid() && Settled(views, fi)
      ensures i == -1 || skip <= i < |Bytes()|
      ensures forall j :: skip <= j < (if i == -1 then |Bytes()| else i) ==> Bytes()[j] != c
      ensures i != -1 ==> Bytes()[i] == c
    {
      hide Linked, Sound, Readable, ReadyLen, AllFit, OpenFrom, Away, Settled, Pending, PeekAgrees;
      SettledLen(mem.blocks, views, ri, fi);
      var size: nat, skips: nat := length, skip;
      if skips >= size { return -1; }
      NotAtEnd(mem.blocks, views, ri, fi, wi);
      var node: Node? := ReadNode();
      ghost var k, text := ri, Bytes();
      var unread: nat := size;
      while unread > 0
        invariant unread <= size == |text| && ri <= k && node == At(k) && skip <= size - unread + skips
        invariant unread > 0 ==> k <= fi && k < |nodes| && Readable(mem.blocks, views, k, fi) == text[size - unread..]
        invariant forall j :: skip <= j < size - unread + skips && j < size ==> text[j] != c
        decreases unread, |nodes| - k
      {
        var v := NodeView(node, k);
        var l: nat := v.buf.len - v.off;
        var n: nat := if l >= unread then unread else l;
        PeekNode(mem.blocks, views, k, fi, n);
        CutAgain(text, size - unread, n);
        if skips >= n {
          skips := skips - n;
        } else {
          var found := SearchNode(v, k, n, skips, c, text, size - unread);
          if found >= 0 { return size - unread + found; }
          skips := 0;
        }
        node := NodeNext(node, k);
        k := k + 1;
        unread := unread - n;
      }
      return -1;
    }

    /** Until: the bytes up to and with the first delimiter. */
    method Until(delim: byte) returns (line: Slice, ok: bool)
      requires Valid() && Settled(views, fi)
      modifies this, nodes, mem`blocks
      ensures ok == (delim in old(Bytes())) && Settled(views, fi)
      ensures if ok then exists n :: 0 <= n < |old(Bytes())| && old(Bytes())[n] == delim && delim !in old(Bytes())[..n]
                           && Took(n + 1) && InMemory(mem.blocks, line) && Text(mem.blocks, line) == old(Bytes())[..n + 1]
              else Took(0) && line == NIL
    {
      hide Linked, Sound, Readable, ReadyLen, AllFit, OpenFrom, Away, Settled, Pending, PeekAgrees, Consumed, Extends, Text;
      var n := IndexByte(delim, 0);
      if n < 0 {
        ConsumedRefl(views, fi);
        ExtendsRefl(mem.blocks);
        assert forall j :: 0 <= j < |Bytes()| ==> Bytes()[j] != delim;
        assert delim !in Bytes();
        return NIL, false;
      }
      line, ok := Next(n + 1);
      assert delim !in old(Bytes())[..n];
    }

    /** The peek cache has room for `n` bytes and agrees with the readable bytes. */
    method ReadyCache(n: nat)
      requires Shape() && PeekAgrees() && 0 < n
      modifies this`cachePeek, mem`blocks
      ensures Shape() && PeekAgrees() && n <= cachePeek.cap
      ensures Extends(old(mem.blocks), mem.blocks) && Bytes() == old(Bytes()) && Tail() == old(Tail())
      ensures old(cachePeek.cap) >= n ==> cachePeek == old(cachePeek)
      ensures old(cachePeek.cap) < n ==> cachePeek.block == |old(mem.blocks)|
    {
      hide Linked, Sound, Readable, AllFit, OpenFrom, Away, Pending;
      if cachePeek.cap < n {
        NewAway(mem.blocks, views);
        cachePeek := mem.Alloc(n);
        ExtendsSame(old(mem.blocks), mem.blocks, views);
        ElsewhereSound(old(mem.blocks), mem.blocks, views, ri, fi, wi);
      }
    }

    /** p = append(p, s...), in place: `p` is the peek cache. */
    method Append(p: Slice, s: Slice) returns (p': Slice)
      requires Shape() && InMemory(mem.blocks, p) && InMemory(mem.blocks, s) && p.len + s.len <= p.cap && Away(views, p.block)
      modifies mem`blocks
      ensures Shape() && OnlyArray(old(mem.blocks), mem.blocks, p.block) && Bytes() == old(Bytes()) && Tail() == old(Tail())
      ensures p' == p.(len := p.len + s.len) && InMemory(mem.blocks, p')
      ensures Text(mem.blocks, p') == old(Text(mem.blocks, p)) + old(Text(mem.blocks, s))
    {
      hide Linked, Sound, Readable, AllFit, OpenFrom, Away, Pending, OnlyArray, Stored;
      p' := p.(len := p.len + s.len);
      ghost var m := mem.blocks;
      FillPart(m, p', p.len, Text(m, s));
      mem.Copy(Part(p, p.len, s.len), s);
      AwaySame(m, mem.blocks, views, p.block);
      ElsewhereSound(m, mem.blocks, views, ri, fi, wi);
      assert Text(m, p')[..p.len] == Text(m, p);
      assert Text(mem.blocks, p')[..p.len + s.len] == Text(mem.blocks, p');
    }

    /** One turn of Peek's copying loop. */
    method PeekStep(p: Slice, n: nat, v: View, ghost k: nat, scanned: nat) returns (p': Slice)
      requires Shape() && k < |views| && k <= fi && v == views[k] && Away(views, p.block)
      requires InMemory(mem.blocks, p) && Text(mem.blocks, p) <= Bytes() && scanned <= p.len < n <= p.cap
      requires Fits(mem.blocks, v) && scanned <= |Bytes()| && Ready(mem.blocks, v) <= Bytes()[scanned..]
      modifies mem`blocks
      ensures Shape() && OnlyArray(old(mem.blocks), mem.blocks, p.block) && Bytes() == old(Bytes()) && Tail() == old(Tail())
      ensures p' == p.(len := p'.len) && p'.len <= n && InMemory(mem.blocks, p') && Text(mem.blocks, p') <= Bytes()
      ensures p'.len < n ==> scanned + v.buf.len - v.off <= p'.len
    {
      hide Linked, Sound, Readable, AllFit, OpenFrom, Away, Pending, OnlyArray;
      var l: nat := v.buf.len - v.off;
      p' := p;
      OnlyArrayRefl(mem.blocks, p.block);
      if scanned + l > p.len {
        var start: nat, copyn: nat := p.len - scanned, n - p.len;
        if copyn > l - start { copyn := l - start; }
        SubReady(mem.blocks, v, start, copyn);
        PrefixGrows(Bytes(), Text(mem.blocks, p), scanned, start, Ready(mem.blocks, v), copyn);
        p' := Append(p, Slice(v.buf.block, v.buf.lo + v.off + start, copyn, copyn));
      }
    }

    /** The copying loop of Peek: the cache grows to the first `n` readable bytes. */
    method FillCache(n: nat)
      requires Shape() && PeekAgrees() && cachePeek.len < n <= cachePeek.cap && n <= |Bytes()|
      modifies this`cachePeek, mem`blocks
      ensures Shape() && PeekAgrees() && cachePeek == old(cachePeek).(len := n)
      ensures OnlyArray(old(mem.blocks), mem.blocks, cachePeek.block) && Bytes() == old(Bytes()) && Tail() == old(Tail())
    {
      hide Linked, Sound, Readable, AllFit, OpenFrom, Away, Pending, OnlyArray, Text;
      var p, scanned := cachePeek, 0;
      ghost var k, b := ri, cachePeek.block;
      OnlyArrayRefl(mem.blocks, b);
      NotAtEnd(mem.blocks, views, ri, fi, wi);
      var node: Node? := ReadNode();
      while p.len < n
        invariant Shape() && OnlyArray(old(mem.blocks), mem.blocks, b) && Bytes() == old(Bytes()) && Tail() == old(Tail())
        invariant p == old(cachePeek).(len := p.len) && p.len <= n && InMemory(mem.blocks, p) && Text(mem.blocks, p) <= Bytes()
        invariant node == At(k) && 0 <= scanned
        invariant p.len < n ==> scanned <= p.len && k <= fi && k < |nodes| && Readable(mem.blocks, views, k, fi) == Bytes()[scanned..]
        modifies mem`blocks
        decreases |nodes| - k, n - p.len
      {
        var v := NodeView(node, k);
        WalkNode(mem.blocks, views, k, fi);
        ghost var m := mem.blocks;
        p := PeekStep(p, n, v, k, scanned);
        OnlyArrayTrans(old(mem.blocks), m, mem.blocks, b);
        AwaySame(m, mem.blocks, views, b);
        SameRest(m, mem.blocks, views, k + 1, fi);
        scanned := scanned + v.buf.len - v.off;
        node := NodeNext(node, k);
        k := k + 1;
      }
      cachePeek := p;
    }

    /** Peek: the first `n` readable bytes, which stay readable. */
    method Peek(n: int) returns (p: Slice, ok: bool)
      requires Valid() && Settled(views, fi)
      modifies this`read, this`ri, this`cachePeek, mem`blocks
      ensures Valid() && Bytes() == old(Bytes()) && Tail() == old(Tail())
      ensures ok == (n <= |Bytes()|) && OnlyCache(old(mem.blocks), mem.blocks, old(cachePeek).block)
      ensures if 0 < n && ok then InMemory(mem.blocks, p) && Text(mem.blocks, p) == Bytes()[..n] else p == NIL
    {
      hide Linked, Sound, Readable, ReadyLen, AllFit, OpenFrom, Away, Settled, Pending, OnlyArray, Extends, OnlyCache;
      SettledLen(mem.blocks, views, ri, fi);
      ghost var m := mem.blocks;
      ExtendsRefl(m);
      OnlyCacheSteps(m, m, m, cachePeek.block, cachePeek.block);
      if n <= 0 || length < n { return NIL, n <= 0; }
      var single := IsSingleNode(n);
      if single {
        p := PeekOne(n);
        return p, true;
      }
      ReadyCache(n);
      ghost var m' := mem.blocks;
      if cachePeek.len < n { FillCache(n); }
      OnlyCacheSteps(m, m', mem.blocks, old(cachePeek).block, cachePeek.block);
      p := cachePeek.(len := n);
      assert Text(mem.blocks, p) == Text(mem.blocks, cachePeek)[..n];
      ok := true;
    }

    /** node.Peek(n) on the read node. */
    method PeekOne(n: nat) returns (p: Slice)
      requires Shape() && ri < |views| && n <= views[ri].buf.len - views[ri].off
      ensures n <= |Bytes()| && InMemory(mem.blocks, p) && Text(mem.blocks, p) == Bytes()[..n]
    {
      hide Linked, Sound, Readable, AllFit, OpenFrom;
      var nd := ReadNode();
      p := Slice(nd.v.buf.block, nd.v.buf.lo + nd.v.off, n, n);
      TakeSound(mem.blocks, views, ri, fi, wi, n);
    }

    // -------------------------------------------------------------- releasing

    method HeadNext() returns (nx: Node?)
      requires Linked() && 0 < |nodes|
      ensures nx == At(1)
    {
      nx := head.next;
    }

    /** The head node goes; it lies before the read node. */
    method DropHead()
      requires Linked() && 0 < ri <= fi <= wi <= |nodes|
      modifies this`head, this`nodes, this`views, this`ri, this`fi, this`wi
      ensures Linked() && nodes == old(nodes)[1..] && views == old(views)[1..]
      ensures ri == old(ri) - 1 && fi == old(fi) - 1 && wi == old(wi) - 1
    {
      hide Chained;
      ChainedSuffix(nodes, views, null, 1);
      var nx := HeadNext();
      head := nx;
      nodes, views, ri, fi, wi := nodes[1..], views[1..], ri - 1, fi - 1, wi - 1;
    }

    method AtRead() returns (same: bool)
      requires Linked() && ri <= |nodes|
      ensures same == (ri == 0)
    {
      same := head == read;
    }

    /** Release: nodes that were read are dropped, and with them every copy handed out. */
    method Release()
      requires Valid()
      modifies this`head, this`read, this`nodes, this`views, this`ri, this`fi, this`wi, this`caches, this`cachePeek
      ensures Valid() && Bytes() == old(Bytes()) && Tail() == old(Tail())
      ensures |nodes| <= |old(nodes)| && ri == 0 && cachePeek == NIL && caches == []
      ensures var d := |old(nodes)| - |nodes|;
              Behind(old(nodes), d, nodes) && Behind(old(views), d, views) && d <= old(fi) && fi == old(fi) - d && wi == old(wi) - d
      ensures SidesKept(old(views), old(fi), old(wi), views, fi, wi)
    {
      hide Linked, Sound, Readable, ReadyLen, AllFit, OpenFrom, Away, Pending, Text, Behind, SidesKept;
      SkipEmpty();
      DropRead();
      BehindSides(old(views), |old(nodes)| - |nodes|, views, old(fi), old(wi));
      caches, cachePeek := [], NIL;
      NilPrefix(mem.blocks, Bytes());
    }

    method DropRead()
      requires Shape()
      modifies this`head, this`nodes, this`views, this`ri, this`fi, this`wi
      ensures Shape() && Bytes() == old(Bytes()) && Tail() == old(Tail()) && ri == 0
      ensures ReadyLen(views, ri, |views|) == old(ReadyLen(views, ri, |views|)) && |nodes| <= |old(nodes)|
      ensures var d := |old(nodes)| - |nodes|;
              Behind(old(nodes), d, nodes) && Behind(old(views), d, views) && d <= old(fi) && fi == old(fi) - d && wi == old(wi) - d
    {
      hide Linked, Sound, Readable, ReadyLen, AllFit, OpenFrom, Pending, Behind;
      ghost var d: nat := 0;
      BehindNone(nodes);
      BehindNone(views);
      var done := AtRead();
      while !done
        invariant Shape() && Bytes() == old(Bytes()) && Tail() == old(Tail()) && done == (ri == 0)
        invariant ReadyLen(views, ri, |views|) == old(ReadyLen(views, ri, |views|))
        invariant Behind(old(nodes), d, nodes) && Behind(old(views), d, views) && |nodes| == |old(nodes)| - d
        invariant d <= old(fi) && fi == old(fi) - d && wi == old(wi) - d
        decreases ri
      {
        DropSound(mem.blocks, views, ri, fi, wi);
        BehindOne(old(nodes), d, nodes);
        BehindOne(old(views), d, views);
        DropHead();
        d := d + 1;
        done := AtRead();
      }
    }

    method SkipEmpty()
      requires Shape()
      modifies this`read, this`ri
      ensures Shape() && Bytes() == old(Bytes()) && ReadyLen(views, ri, |views|) == old(ReadyLen(views, ri, |views|))
      ensures ri < fi ==> views[ri].off < views[ri].buf.len
    {
      hide Linked, Sound, Readable, ReadyLen, AllFit, OpenFrom;
      var last := AtFlush();
      while !last
        invariant Shape() && Bytes() == old(Bytes()) && last == (ri == fi)
        invariant ReadyLen(views, ri, |views|) == old(ReadyLen(views, ri, |views|))
        decreases |views| - ri
      {
        var l: nat := ReadLen();
        if l != 0 { break; }
        StepSound(mem.blocks, views, ri, fi, wi);
        Forward();
        last := AtFlush();
      }
    }

    /** The unread part of a node, as a slice. */
    method Unread(nd: Node, ghost k: nat) returns (p: Slice)
      requires Shape() && k < |nodes| && nodes[k] == nd
      ensures InMemory(mem.blocks, p) && Fits(mem.blocks, views[k]) && Text(mem.blocks, p) == Ready(mem.blocks, views[k])
    {
      hide Linked, Sound, AllFit;
      var v := NodeView(nd, k);
      p := Slice(v.buf.block, v.buf.lo + v.off, v.buf.len - v.off, v.buf.cap - v.off);
    }

    method Reached(node: Node?, ghost k: nat) returns (same: bool)
      requires Linked() && node == At(k) && k <= fi < |nodes|
      ensures same == (k == fi)
    {
      same := node == flush;
    }

    /** Some node before the flush node has nothing left to read. */
    ghost predicate HasEmpty()
      reads this`views, this`ri, this`fi
      requires fi <= |views|
    {
      exists j :: ri <= j < fi && views[j].off == views[j].buf.len
    }

    /** The filling loop of GetBytes. */
    method Collect(slots: nat) returns (ps: seq<Slice>)
      requires Shape() && fi < |views|
      ensures |ps| <= slots && forall i :: 0 <= i < |ps| ==> InMemory(mem.blocks, ps[i])
      ensures Joined(mem.blocks, ps) <= Bytes()
      ensures |ps| < slots ==> Joined(mem.blocks, ps) == Bytes()
      ensures 0 < slots && Bytes() != [] ==> Joined(mem.blocks, ps) != []
      ensures slots == fi - ri ==>
                (Joined(mem.blocks, ps) == Bytes() <==> HasEmpty() || views[fi].off == views[fi].buf.len)
    {
      hide Linked, Sound, Readable, AllFit, OpenFrom, Away, Pending, Joined, Text, Fits;
      ps := [];
      var node: Node? := ReadNode();
      ghost var k := ri;
      JoinedNone(mem.blocks);
      var done := Reached(node, k);
      while !done && |ps| < slots
        invariant |ps| <= slots && (forall i :: 0 <= i < |ps| ==> InMemory(mem.blocks, ps[i]))
        invariant ri <= k <= fi && node == At(k) && done == (k == fi)
        invariant Joined(mem.blocks, ps) + Readable(mem.blocks, views, k, fi) == Bytes()
        invariant 0 < |ps| ==> Joined(mem.blocks, ps) != []
        invariant |ps| <= k - ri && (|ps| < k - ri ==> HasEmpty())
        invariant |ps| == k - ri ==> forall j :: ri <= j < k ==> views[j].off != views[j].buf.len
        decreases fi - k
      {
        WalkNode(mem.blocks, views, k, fi);
        var p := Unread(node, k);
        JoinStep(Joined(mem.blocks, ps), Text(mem.blocks, p), Readable(mem.blocks, views, k, fi), Bytes());
        if p.len > 0 {
          JoinedMore(mem.blocks, ps, p);
          ps := ps + [p];
        }
        node := NodeNext(node, k);
        k := k + 1;
        done := Reached(node, k);
      }
      if |ps| < slots {
        WalkNode(mem.blocks, views, k, fi);
        var p := Unread(node, k);
        JoinedMore(mem.blocks, ps, p);
        ps := ps + [p];
      } else {
        WalkNode(mem.blocks, views, k, fi);
      }
    }

    /** GetBytes with slots to fill: a prefix of the readable bytes, all of them if a slot is left, and not
        nothing unless there is nothing. */
    method GetBytes(slots: nat) returns (ps: seq<Slice>)
      requires Valid() && fi < |views| && 0 < slots
      ensures |ps| <= slots && forall i :: 0 <= i < |ps| ==> InMemory(mem.blocks, ps[i])
      ensures Joined(mem.blocks, ps) <= Bytes()
      ensures |ps| < slots ==> Joined(mem.blocks, ps) == Bytes()
      ensures Bytes() != [] ==> Joined(mem.blocks, ps) != []
    {
      hide Linked, Sound, Readable, AllFit, OpenFrom, PeekAgrees, Joined, Text, Fits, HasEmpty;
      ps := Collect(slots);
    }

    /** GetBytes without slots makes as many as there are nodes before the flush node.  It returns all the
        readable bytes if and only if one of those is empty, or the flush node is. */
    method GetAllBytes() returns (ps: seq<Slice>)
      requires Valid() && fi < |views|
      ensures forall i :: 0 <= i < |ps| ==> InMemory(mem.blocks, ps[i])
      ensures Joined(mem.blocks, ps) <= Bytes()
      ensures Joined(mem.blocks, ps) == Bytes() <==> HasEmpty() || views[fi].off == views[fi].buf.len
    {
      hide Linked, Sound, Readable, AllFit, OpenFrom, PeekAgrees, Joined, Text, Fits, HasEmpty;
      var n: nat := 0;
      var node: Node? := ReadNode();
      var done := Reached(node, ri);
      ghost var k := ri;
      while !done
        invariant ri <= k <= fi && node == At(k) && done == (k == fi) && n == k - ri
        decreases fi - k
      {
        node := NodeNext(node, k);
        k, n := k + 1, n + 1;
        done := Reached(node, k);
      }
      ps := Collect(n);
    }

    // -------------------------------------------------------------- slicing

    /** p.flush.next = nd; p.flush = nd, while Slice builds `p`. */
    method Extend(nd: Node)
      requires Linked() && ri < |nodes| && fi + 1 == |nodes| == wi && nd.next == null && nd !in nodes
      modifies this`flush, this`nodes, this`views, this`fi, this`wi, nodes
      ensures Linked() && nodes == old(nodes) + [nd] && views == old(views) + [nd.v] && fi == old(fi) + 1 && wi == old(wi) + 1
      ensures nd.v == old(nd.v)
    {
      hide Chained;
      ChainedOne(nd);
      Relink(flush, nd, nodes, views, null);
      flush := nd;
      ChainedJoin(nodes, views, [nd], [nd.v], null);
      nodes, views, fi, wi := nodes + [nd], views + [nd.v], fi + 1, wi + 1;
    }

    /** The buffer under construction: windows that hold `t`. */
    ghost predicate Holds(t: seq<byte>)
      reads this`nodes, this`views, this`head, this`read, this`flush, this`write, this`ri, this`fi, this`wi, nodes, mem
      reads this`length, this`mallocSize, this`cachePeek
    {
      && Linked() && ri == 0 && fi + 1 == |nodes| == wi && AllFit(mem.blocks, views) && 0 < |mem.blocks|
      && Flat(mem.blocks, views, 0, |views|) == t && ReadyLen(views, 0, |views|) == |t|
      && mallocSize == 0 && cachePeek == NIL
    }

    /** Set to read-only: the flush and write pointers become nil. */
    method Seal(n: nat, ghost t: seq<byte>)
      requires Holds(t) && |t| == n
      modifies this`length, this`flush, this`fi
      ensures Valid() && fi == |views| && Bytes() == t
    {
      length := n;
      flush := null;
      fi := |nodes|;
    }

    /** node.Refer(n) on the read node: a window on its next `n` bytes. */
    method Refer(n: nat) returns (nd: Node)
      requires Shape() && ri < |views| && n <= views[ri].buf.len - views[ri].off
      modifies this`views, nodes
      ensures fresh(nd) && nd.next == null && Shape() && Consumed(old(views), views, fi)
      ensures n <= |old(Bytes())| && Bytes() == old(Bytes())[n..]
      ensures Fits(mem.blocks, nd.v) && Ready(mem.blocks, nd.v) == old(Bytes())[..n] && nd.v.buf.len - nd.v.off == n
      ensures ReadyLen(views, ri, |views|) == old(ReadyLen(views, ri, |views|)) - n
      ensures views[ri].off == old(views)[ri].off + n && views[ri].buf == old(views)[ri].buf
    {
      hide Linked, Sound, Readable, ReadyLen, AllFit, Consumed, OpenFrom, Text, Ready, Fits;
      var s := Take(n);
      WindowFits(mem.blocks, s);
      nd := new Node(Window(s));
    }

    /** Add one more window. */
    method AddWindow(nd: Node, ghost t: seq<byte>)
      requires Holds(t) && nd.next == null && nd !in nodes && Fits(mem.blocks, nd.v)
      modifies this`flush, this`nodes, this`views, this`fi, this`wi, nodes
      ensures nodes == old(nodes) + [nd] && nd.v == old(nd.v) && Fits(mem.blocks, nd.v) && Holds(t + Ready(mem.blocks, nd.v))
    {
      hide Linked, Flat, ReadyLen, Fits, Ready, AllFit;
      FlatMore(mem.blocks, views, nd.v);
      CountMore(views, nd.v);
      Extend(nd);
    }

    /** The first window of a slice. */
    method FirstWindow(n: nat) returns (r: LinkBuffer)
      requires Shape() && ri < |views| && n <= views[ri].buf.len - views[ri].off
      modifies this`views, nodes
      ensures Shape() && Consumed(old(views), views, fi)
      ensures n <= |old(Bytes())| && Bytes() == old(Bytes())[n..]
      ensures ReadyLen(views, ri, |views|) == old(ReadyLen(views, ri, |views|)) - n
      ensures views[ri].off == old(views)[ri].off + n && views[ri].buf == old(views)[ri].buf
      ensures fresh(r) && fresh(r.nodes) && r.mem == mem && r.Holds(old(Bytes())[..n])
    {
      hide Linked, Sound, Readable, Consumed, OpenFrom, Text, Ready, Fits;
      var nd := Refer(n);
      r := new LinkBuffer.Windows(mem, nd);
      OneWindow(mem.blocks, nd.v);
    }

    /** One more window for `r`. */
    method NextWindow(r: LinkBuffer, n: nat, ghost t: seq<byte>)
      requires Shape() && ri < |views| && n <= views[ri].buf.len - views[ri].off
      requires r != this && r.mem == mem && r.Holds(t)
      requires forall j, k :: 0 <= j < |nodes| && 0 <= k < |r.nodes| ==> nodes[j] != r.nodes[k]
      modifies this`views, nodes, r, r.nodes
      ensures Shape() && Consumed(old(views), views, fi) && nodes == old(nodes)
      ensures n <= |old(Bytes())| && Bytes() == old(Bytes())[n..]
      ensures ReadyLen(views, ri, |views|) == old(ReadyLen(views, ri, |views|)) - n
      ensures views[ri].off == old(views)[ri].off + n && views[ri].buf == old(views)[ri].buf
      ensures r.Holds(t + old(Bytes())[..n]) && forall k :: 0 <= k < |r.nodes| ==> r.nodes[k] in old(r.nodes) || fresh(r.nodes[k])
    {
      hide Linked, Sound, Readable, ReadyLen, AllFit, Consumed, OpenFrom, Ready, Fits, Holds, Flat;
      var nd := Refer(n);
      r.AddWindow(nd, t);
    }

    /** One turn of Slice's loop; `text` is what was readable, `done` how much of it `r` has. */
    method WindowStep(r: LinkBuffer, ack: nat, ghost text: seq<byte>, ghost done: nat) returns (more: nat)
      requires Shape() && 0 < ack <= |Bytes()| && done <= |text| && Bytes() == text[done..]
      requires r != this && r.mem == mem && r.Holds(text[..done])
      requires forall j, k :: 0 <= j < |nodes| && 0 <= k < |r.nodes| ==> nodes[j] != r.nodes[k]
      modifies this`read, this`ri, this`views, nodes, r, r.nodes
      ensures Shape() && Consumed(old(views), views, fi) && nodes == old(nodes) && old(ri) <= ri
      ensures more < ack || (more == ack && old(ri) < ri)
      ensures var now := done + ack - more; now <= |text| && Bytes() == text[now..] && r.Holds(text[..now])
      ensures ReadyLen(views, ri, |views|) == old(ReadyLen(views, ri, |views|)) - (ack - more)
      ensures forall k :: 0 <= k < |r.nodes| ==> r.nodes[k] in old(r.nodes) || fresh(r.nodes[k])
    {
      hide Linked, Sound, Readable, ReadyLen, AllFit, Consumed, OpenFrom, Ready, Fits, Holds, Flat;
      NotAtEnd(mem.blocks, views, ri, fi, wi);
      var l: nat := ReadLen();
      var k: nat := if l >= ack then ack else l;
      if l < ack { PassSound(mem.blocks, views, ri, fi, wi, ack); }
      ConsumedRefl(views, fi);
      CutAgain(text, done, k);
      if k > 0 { NextWindow(r, k, text[..done]); }
      if l >= ack { return 0; }
      StepSound(mem.blocks, views, ri, fi, wi);
      Forward();
      more := ack - l;
    }

    /** The windows of a slice that spans more than one node. */
    method AllWindows(n: nat) returns (r: LinkBuffer)
      requires Shape() && ri < |views| && 0 < views[ri].buf.len - views[ri].off < n <= |Bytes()|
      modifies this`read, this`ri, this`views, nodes
      ensures Shape() && Consumed(old(views), views, fi) && Bytes() == old(Bytes())[n..]
      ensures ReadyLen(views, ri, |views|) == old(ReadyLen(views, ri, |views|)) - n
      ensures fresh(r) && fresh(r.nodes) && r.mem == mem && r.Holds(old(Bytes())[..n])
    {
      hide Linked, Sound, Readable, ReadyLen, AllFit, Consumed, OpenFrom, Ready, Fits, Holds, Flat;
      ghost var text := Bytes();
      var l: nat := ReadLen();
      PassSound(mem.blocks, views, ri, fi, wi, n);
      r := FirstWindow(l);
      StepSound(mem.blocks, views, ri, fi, wi);
      Forward();
      var ack: nat := n - l;
      while ack > 0
        invariant ack < n && Shape() && Consumed(old(views), views, fi) && Bytes() == text[n - ack..]
        invariant ReadyLen(views, ri, |views|) == old(ReadyLen(views, ri, |views|)) - (n - ack)
        invariant fresh(r) && (forall k :: 0 <= k < |r.nodes| ==> fresh(r.nodes[k])) && r.mem == mem && r.Holds(text[..n - ack])
        decreases ack, |views| - ri
      {
        ghost var vs := views;
        ack := WindowStep(r, ack, text, n - ack);
        ConsumedTrans(old(views), vs, views, fi);
      }
    }

    /** Slice: the first `n` readable bytes as a buffer of their own, which shares their memory.  Only
        when they lie in more than one node does it also release what was read. */
    method SliceOff(n: int) returns (r: LinkBuffer?, ok: bool)
      requires Valid() && Settled(views, fi)
      modifies this, nodes, mem`blocks
      ensures ok == (n <= |old(Bytes())|) && (r != null <==> ok) && mem.blocks == old(mem.blocks)
      ensures Valid() && Tail() == old(Tail()) && mallocSize == old(mallocSize)
      ensures SidesKept(old(views), old(fi), old(wi), views, fi, wi)
      ensures Bytes() == if 0 < n && ok then old(Bytes())[n..] else old(Bytes())
      ensures ok ==> fresh(r) && fresh(r.nodes) && r.mem == mem && r.Valid() && r.Bytes() == if 0 < n then old(Bytes())[..n] else []
      ensures 0 < n && ok ==> r.fi == |r.views|
    {
      hide Linked, Sound, Readable, ReadyLen, AllFit, OpenFrom, Away, Pending, Consumed, Extends, Settled, SidesKept, PeekAgrees, Holds, Text;
      SettledLen(mem.blocks, views, ri, fi);
      ConsumedRefl(views, fi);
      ConsumedSides(mem.blocks, views, views, fi, wi);
      if n <= 0 {
        r := new LinkBuffer(mem, 0);
        return r, true;
      }
      if length < n { return null, false; }
      var single: bool;
      r, single := Carve(n);
      ConsumedSides(mem.blocks, old(views), views, fi, wi);
      if !single { ReleaseAfter(old(views), fi, wi); }
      ok := true;
    }

    /** The slice itself, before anything is released. */
    method Carve(n: nat) returns (r: LinkBuffer, single: bool)
      requires Valid() && 0 < n <= |Bytes()|
      modifies this, nodes
      ensures Took(n) && fresh(r) && fresh(r.nodes) && r.mem == mem && r.Valid() && r.fi == |r.views| && r.Bytes() == old(Bytes())[..n]
    {
      hide Linked, Sound, Readable, ReadyLen, AllFit, OpenFrom, Away, Pending, Consumed, Extends, Settled, PeekAgrees, Holds, Text;
      RecalLen(0 - n);
      single := IsSingleNode(n);
      ghost var text := Bytes();
      if single { r := FirstWindow(n); } else { r := AllWindows(n); }
      r.Seal(n, text[..n]);
      ExtendsRefl(mem.blocks);
      TookNow(n);
    }

    /** The Release at the end of Slice. */
    method ReleaseAfter(ghost vs: seq<View>, ghost f: nat, ghost w: nat)
      requires Valid() && SidesKept(vs, f, w, views, fi, wi)
      modifies this`head, this`read, this`nodes, this`views, this`ri, this`fi, this`wi, this`caches, this`cachePeek
      ensures Valid() && Bytes() == old(Bytes()) && Tail() == old(Tail()) && SidesKept(vs, f, w, views, fi, wi)
    {
      hide Linked, Sound, Readable, ReadyLen, AllFit, OpenFrom, Away, Pending, Text, Behind, SidesKept, PeekAgrees;
      Release();
      SidesTrans(vs, f, w, old(views), old(fi), old(wi), views, fi, wi);
    }

    // -------------------------------------------------------------- writer

    /** write.next = nd; write = nd */
    method LinkBehind(nd: Node)
      requires Linked() && ri <= fi <= wi < |nodes| && nd.next == null && nd !in nodes
      modifies this`write, this`nodes, this`views, this`wi, nodes
      ensures Linked() && nodes == old(nodes)[..old(wi) + 1] + [nd] && views == Continued(old(views), old(wi), [nd.v])
      ensures wi == old(wi) + 1 && nd.v == old(nd.v)
    {
      hide Chained;
      ghost var ns, vs := nodes[..wi + 1], views[..wi + 1];
      ChainedPrefix(nodes, views, null, wi);
      ChainedOne(nd);
      Relink(write, nd, ns, vs, At(wi + 1));
      write := nd;
      assert forall k :: 0 <= k < |ns| ==> ns[k] == nodes[k];
      ChainedJoin(ns, vs, [nd], [nd.v], null);
      nodes, views, wi := ns + [nd], vs + [nd.v], wi + 1;
    }

    method WriteNode() returns (nd: Node)
      requires Linked() && wi < |nodes|
      ensures nd == nodes[wi] && nd.v == views[wi] && nd.next == At(wi + 1)
    {
      nd := write;
    }

    /** write = write.next */
    method Advance()
      requires Linked() && wi + 1 < |nodes|
      modifies this`write, this`wi
      ensures Linked() && wi == old(wi) + 1
    {
      write := write.next;
      wi := wi + 1;
    }

    /** A blank node behind the write node: no byte is added or lost. */
    method AddNode(size: int)
      requires Shape() && wi < |views|
      modifies this`write, this`nodes, this`views, this`wi, nodes, mem`blocks
      ensures Shape() && wi == old(wi) + 1 == |views| - 1 && Bytes() == old(Bytes()) && Tail() == old(Tail())
      ensures ReadyLen(views, ri, |views|) == old(ReadyLen(views, ri, |views|)) && WaitingLen(views, fi) == old(WaitingLen(views, fi))
      ensures |nodes| == wi + 1 && nodes[..wi] == old(nodes)[..wi] && fresh(nodes[wi])
      ensures Blank(views[wi]) && views == Continued(old(views), old(wi), [views[wi]])
      ensures if size <= 0 then views[wi].buf == NIL && mem.blocks == old(mem.blocks) else !views[wi].readonly && size <= views[wi].buf.cap && views[wi].buf.block == |old(mem.blocks)|
      ensures Extends(old(mem.blocks), mem.blocks) && SidesKept(old(views), fi, old(wi), views, fi, wi) && Apart(views, wi)
    {
      hide Linked, Readable, ReadyLen, WaitingLen, OpenFrom, BlankFrom, Pending, SidesKept, Apart, AllFit, Fits;
      hide Sound;
      ExtendsRefl(mem.blocks);
      var nd := NewNode(mem, size);
      assert Extends(old(mem.blocks), mem.blocks);
      ExtendsSame(old(mem.blocks), mem.blocks, views);
      ElsewhereSound(old(mem.blocks), mem.blocks, views, ri, fi, wi);
      BlankWaits(mem.blocks, nd.v);
      LinkSound(mem.blocks, views, ri, fi, wi, nd.v);
      NewAway(old(mem.blocks), views);
      LinkSides(views, fi, wi, nd.v);
      LinkBehind(nd);
    }

    /** growth: the write node ends up writable, with room for `n` bytes. */
    method Growth(n: nat)
      requires Shape() && wi < |views| && 0 < n
      modifies this`write, this`nodes, this`views, this`wi, nodes, mem`blocks
      ensures Shape() && old(wi) <= wi < |views| && Bytes() == old(Bytes()) && Tail() == old(Tail())
      ensures ReadyLen(views, ri, |views|) == old(ReadyLen(views, ri, |views|)) && WaitingLen(views, fi) == old(WaitingLen(views, fi))
      ensures !views[wi].readonly && n <= views[wi].buf.cap - views[wi].malloc
      ensures GrownChain(old(views), views) && GrownNodes(old(nodes), nodes) && Extends(old(mem.blocks), mem.blocks)
      ensures |old(views)| < |views| ==> views[|old(views)|].buf.block == |old(mem.blocks)|
      ensures SidesKept(old(views), fi, old(wi), views, fi, wi)
    {
      hide Linked, Readable, ReadyLen, WaitingLen, OpenFrom, BlankFrom, Pending, SidesKept, Apart, AllFit, Sound, Extends, GrownChain;
      ExtendsRefl(mem.blocks);
      SidesRefl(views, fi, wi);
      GrownNone(views);
      var nd := WriteNode();
      while (nd.v.readonly || nd.v.buf.cap - nd.v.malloc < n) && nd.next != null
        invariant Shape() && old(wi) <= wi < |views| && nd == nodes[wi] && nd.v == views[wi] && nd.next == At(wi + 1)
        invariant SidesKept(old(views), fi, old(wi), views, fi, wi)
        modifies this`write, this`wi
        decreases |nodes| - wi
      {
        AdvanceSound(mem.blocks, views, ri, fi, wi);
        SidesTrans(old(views), fi, old(wi), views, fi, wi, views, fi, wi + 1);
        Advance();
        nd := WriteNode();
      }
      if nd.v.readonly || nd.v.buf.cap - nd.v.malloc < n {
        ghost var w := wi;
        AddNode(n);
        GrownOne(old(views), w, views);
        SidesTrans(old(views), fi, old(wi), old(views), fi, w, views, fi, wi);
      }
    }

    /** Whatever is pending, its size is what mallocSize says. */
    ghost predicate Counted()
      reads this`mallocSize, this`views, this`fi
    {
      mallocSize == WaitingLen(views, fi)
    }

    /** growth and node.Malloc: `n` bytes more are pending, wherever they are stored. */
    method Reserve(n: nat) returns (p: Slice)
      requires Shape() && wi < |views| && 0 < n
      modifies this`write, this`nodes, this`views, this`wi, nodes, mem`blocks
      ensures Shape() && wi < |views| && p.len == n && p.block == views[wi].buf.block && Bytes() == old(Bytes())
      ensures Hands(old(views), views, fi, p) && InMemory(mem.blocks, p) && Tail() == old(Tail()) + Text(mem.blocks, p)
      ensures ReadyLen(views, ri, |views|) == old(ReadyLen(views, ri, |views|)) && WaitingLen(views, fi) == old(WaitingLen(views, fi)) + n
      ensures GrownNodes(old(nodes), nodes) && Extends(old(mem.blocks), mem.blocks)
      ensures SidesKept(old(views), fi, old(wi), views, fi, wi)
      ensures old(Apart(views, wi)) ==> Untouched(old(views), p) && ReadyAway(views, p)
      ensures AwayKept(old(views), views, |old(mem.blocks)|)
    {
      hide Linked, Readable, ReadyLen, WaitingLen, OpenFrom, BlankFrom, Pending, SidesKept, Apart, AllFit, Sound, Extends, GrownChain, Text, Hands, AwayKept, Untouched, ReadyAway;
      Growth(n);
      ghost var vs := views;
      var nd := WriteNode();
      p := Slice(nd.v.buf.block, nd.v.buf.lo + nd.v.malloc, n, n);
      ReserveFacts(mem.blocks, old(views), vs, ri, fi, old(wi), wi, n, |old(mem.blocks)|);
      Update(nd, wi, nd.v.(malloc := nd.v.malloc + n));
    }

    /** What no writer operation short of Flush touches. */
    twostate predicate Writing()
      requires old(Valid()) && old(wi) < |old(views)|
      reads this, nodes, mem
    {
      && Valid() && wi < |views| && fi == old(fi) && length == old(length) && Bytes() == old(Bytes())
      && SidesKept(old(views), fi, old(wi), views, fi, wi) && (old(Counted()) ==> Counted())
    }

    /** Malloc: `n` bytes that overlap nothing in use become the end of the pending bytes, whatever is
        stored in them before or after. */
    method Malloc(n: int) returns (p: Slice)
      requires Valid() && wi < |views|
      modifies this`mallocSize, this`write, this`nodes, this`views, this`wi, nodes, mem`blocks
      ensures Writing() && GrownNodes(old(nodes), nodes) && Extends(old(mem.blocks), mem.blocks)
      ensures if n <= 0 then p == NIL && Tail() == old(Tail()) && mallocSize == old(mallocSize)
              else p.len == n && InMemory(mem.blocks, p) && Tail() == old(Tail()) + Text(mem.blocks, p) && mallocSize == old(mallocSize) + n
      ensures 0 < n ==> Hands(old(views), views, fi, p)
      ensures 0 < n && old(Apart(views, wi)) ==> Untouched(old(views), p) && ReadyAway(views, p)
      ensures AwayKept(old(views), views, |old(mem.blocks)|) && (0 < n ==> p.block == views[wi].buf.block)
    {
      hide Linked, Readable, ReadyLen, WaitingLen, Away, OpenFrom, BlankFrom, Pending, SidesKept, Apart, AllFit, Sound, Hands, Untouched, Text, ReadyAway;
      if n <= 0 {
        SidesRefl(views, fi, wi);
        return NIL;
      }
      mallocSize := mallocSize + n;
      p := Reserve(n);
      CacheAway(old(mem.blocks), mem.blocks, old(views), views, cachePeek);
    }

    /** buf := write.Malloc(n); copy(buf, s) */
    method CopyIn(s: Slice) returns (p: Slice)
      requires Shape() && wi < |views| && 0 < s.len && InMemory(mem.blocks, s) && Apart(views, wi)
      modifies this`write, this`nodes, this`views, this`wi, nodes, mem`blocks
      ensures Shape() && wi < |views| && Bytes() == old(Bytes()) && Tail() == old(Tail()) + old(Text(mem.blocks, s))
      ensures ReadyLen(views, ri, |views|) == old(ReadyLen(views, ri, |views|)) && WaitingLen(views, fi) == old(WaitingLen(views, fi)) + s.len
      ensures SidesKept(old(views), fi, old(wi), views, fi, wi) && AwayKept(old(views), views, |old(mem.blocks)|)
      ensures OnlySlice(old(mem.blocks), mem.blocks, p) && p.block == views[wi].buf.block && Untouched(old(views), p)
      ensures GrownOrOld(old(nodes), nodes)
    {
      hide Linked, Readable, ReadyLen, WaitingLen, Away, OpenFrom, BlankFrom, Pending, SidesKept, Apart, AllFit, Sound, AwayKept, Untouched, Text, OnlySlice, Stored, Extends, Hands;
      ghost var m0, t := mem.blocks, Text(mem.blocks, s);
      p := Reserve(s.len);
      ghost var m1 := mem.blocks;
      ExtendsText(m0, m1, s);
      CopyFacts(m0, m1, old(views), views, old(ri), fi, old(wi), wi, p, t);
      mem.Copy(p, s);
    }

    /** The data is linked in as a node of its own. */
    method LinkIn(s: Slice)
      requires Shape() && wi < |views| && InMemory(mem.blocks, s)
      modifies this`write, this`nodes, this`views, this`wi, nodes
      ensures Shape() && wi < |views| && Bytes() == old(Bytes()) && Tail() == old(Tail()) + Text(mem.blocks, s)
      ensures ReadyLen(views, ri, |views|) == old(ReadyLen(views, ri, |views|)) && WaitingLen(views, fi) == old(WaitingLen(views, fi)) + s.len
      ensures HandsAt(old(views), views, fi, s) && Apart(views, wi)
      ensures (old(Settled(views, fi)) ==> Settled(views, fi)) && (old(SealedTo(views, fi)) ==> SealedTo(views, fi))
      ensures forall b: nat :: b != s.block && Away(old(views), b) ==> Away(views, b)
      ensures GrownOrOld(old(nodes), nodes)
    {
      hide Linked, Readable, ReadyLen, WaitingLen, OpenFrom, BlankFrom, Pending, Apart, Own, AllFit, Sound, Text, HandsAt, Settled, SealedTo, Plain;
      var nd := new Node(Wrapping(s));
      LinkFacts(mem.blocks, views, ri, fi, wi, s);
      LinkBehind(nd);
    }

    /** WriteBinary: small data is copied into malloced memory, large data is linked in as it is. */
    method WriteBinary(s: Slice) returns (n: nat)
      requires Valid() && wi < |views| && InMemory(mem.blocks, s) && Apart(views, wi)
      requires s.len > BINARY_INPLACE_THRESHOLD && cachePeek.cap > 0 ==> s.block != cachePeek.block
      modifies this`mallocSize, this`write, this`nodes, this`views, this`wi, nodes, mem`blocks
      ensures n == s.len && Valid() && wi < |views| && fi == old(fi) && length == old(length) && Bytes() == old(Bytes())
      ensures Tail() == old(Tail()) + old(Text(mem.blocks, s)) && mallocSize == old(mallocSize) + n
      ensures Apart(views, wi) && (old(Counted()) ==> Counted())
      ensures (old(Settled(views, fi)) ==> Settled(views, fi)) && (old(SealedTo(views, fi)) ==> SealedTo(views, fi))
      ensures GrownOrOld(old(nodes), nodes)
      ensures n <= BINARY_INPLACE_THRESHOLD ==> SidesKept(old(views), fi, old(wi), views, fi, wi)
      ensures n > BINARY_INPLACE_THRESHOLD ==> HandsAt(old(views), views, fi, s) && mem.blocks == old(mem.blocks)
    {
      hide Linked, Readable, ReadyLen, WaitingLen, Away, OpenFrom, BlankFrom, Pending, SidesKept, Apart, AllFit, Sound, HandsAt, Settled, SealedTo, Text;
      n := s.len;
      if n == 0 {
        SidesRefl(views, fi, wi);
        return;
      }
      mallocSize := mallocSize + n;
      if n > BINARY_INPLACE_THRESHOLD {
        LinkIn(s);
      } else {
        var p := CopyIn(s);
        CacheStored(old(mem.blocks), mem.blocks, old(views), views, cachePeek, p, wi);
        SidesApart(old(views), fi, old(wi), views, fi, wi);
      }
    }

    method SealOne(nd: Node, ghost k: nat) returns (delta: nat)
      requires Linked() && k < |nodes| && nodes[k] == nd && Open(views[k])
      modifies this`views, nd`v
      ensures Linked() && views == old(views)[k := Sealed(old(views)[k])] && delta == old(views)[k].malloc - old(views)[k].buf.len
    {
      hide Linked;
      var v := ChainView(nd, k);
      delta := v.malloc - v.buf.len;
      if delta > 0 { Update(nd, k, v.(buf := v.buf.(len := v.malloc))); }
    }

    /** The sealing loop of Flush. */
    method SealAll() returns (n: nat)
      requires Shape() && wi < |views|
      modifies this`views, nodes
      ensures Linked() && views == SealedFrom(old(views), fi, wi + 1) && n == old(WaitingLen(views, fi))
    {
      hide Linked, Sound, Readable, Pending, AllFit, WaitingLen, SealedFrom, OpenFrom, Sealed;
      n := 0;
      var node: Node? := FlushNode();
      ghost var k, vs := fi, views;
      SealNone(vs, fi);
      FlushRest(mem.blocks, vs, ri, fi, wi);
      var stop := BehindWrite();
      var done := SamePlace(node, k, stop, wi + 1);
      while !done
        invariant Linked() && fi <= k <= wi + 1 && node == At(k) && stop == At(wi + 1) && done == (k == wi + 1)
        invariant views == SealedFrom(vs, fi, k) && n == WaitingLen(vs, fi) - WaitingLen(vs, k)
        decreases |nodes| - k
      {
        SealStep(vs, fi, k);
        var delta := SealOne(node, k);
        n := n + delta;
        node := NodeNext(node, k);
        k := k + 1;
        done := SamePlace(node, k, stop, wi + 1);
      }
    }

    /** write.next */
    method BehindWrite() returns (nd: Node?)
      requires Linked() && wi < |nodes|
      ensures nd == At(wi + 1)
    {
      nd := write.next;
    }

    /** Pointers into the chain are equal only at one position. */
    method SamePlace(a: Node?, ghost i: nat, b: Node?, ghost j: nat) returns (same: bool)
      requires Linked() && a == At(i) && b == At(j) && i <= |nodes| && j <= |nodes|
      ensures same == (i == j)
    {
      same := a == b;
    }

    method FlushNode() returns (nd: Node)
      requires Linked() && fi < |nodes|
      ensures nd == nodes[fi]
    {
      nd := flush;
    }

    method ChainView(nd: Node, ghost k: nat) returns (v: View)
      requires Linked() && k < |nodes| && nodes[k] == nd
      ensures v == views[k]
    {
      v := nd.v;
    }

    /** flush = write */
    method FlushHere()
      requires Linked()
      modifies this`flush, this`fi
      ensures Linked() && fi == wi
    {
      flush := write;
      fi := wi;
    }

    /** The loop of Flush, and flush = write. */
    method Submit() returns (n: nat)
      requires Shape() && wi < |views|
      modifies this`views, this`flush, this`fi, nodes
      ensures Shape() && fi == wi && views == SealedFrom(old(views), old(fi), wi + 1) && n == old(WaitingLen(views, fi))
      ensures Bytes() == old(Bytes()) + old(Tail()) && Tail() == [] && WaitingLen(views, fi) == 0
      ensures ReadyLen(views, ri, |views|) == old(ReadyLen(views, ri, |views|)) + n
    {
      hide Linked, Sound, Readable, ReadyLen, WaitingLen, OpenFrom, Pending, AllFit, SealedFrom;
      FlushSound(mem.blocks, views, ri, fi, wi);
      n := SealAll();
      FlushHere();
    }

    /** Flush: everything pending becomes readable, behind what was. */
    method Flush()
      requires Valid() && wi < |views|
      modifies this`length, this`mallocSize, this`flush, this`write, this`nodes, this`views, this`fi, this`wi, nodes, mem`blocks
      ensures Valid() && fi == wi < |views| && mem.blocks == old(mem.blocks)
      ensures Bytes() == old(Bytes()) + old(Tail()) && Tail() == [] && mallocSize == 0 && Counted()
      ensures length == old(length) + old(WaitingLen(views, fi))
      ensures Settled(views, fi) && Plain(views, fi) && (old(SealedTo(views, fi)) ==> SealedTo(views, fi))
      ensures old(Apart(views, wi)) ==> Own(views, fi)
      ensures GrownOrOld(old(nodes), nodes)
    {
      hide Linked, Sound, Readable, ReadyLen, WaitingLen, Away, OpenFrom, Pending, SidesKept, Apart, AllFit, Settled, SealedTo, Plain, Own, Text, SealedFrom;
      mallocSize := 0;
      var nd := WriteNode();
      SidesRefl(views, fi, wi);
      if nd.v.buf.cap > PAGE_SIZE { AddTail(); }
      FlushFacts(old(views), fi, old(wi), views, wi, mem.blocks, ri, cachePeek.block);
      var n := Submit();
      length := length + n;
    }

    /** The empty tail node Flush adds behind a large one. */
    method AddTail()
      requires Shape() && wi < |views|
      modifies this`write, this`nodes, this`views, this`wi, nodes, mem`blocks
      ensures Shape() && wi < |views| && Bytes() == old(Bytes()) && Tail() == old(Tail()) && mem.blocks == old(mem.blocks)
      ensures ReadyLen(views, ri, |views|) == old(ReadyLen(views, ri, |views|)) && WaitingLen(views, fi) == old(WaitingLen(views, fi))
      ensures SidesKept(old(views), fi, old(wi), views, fi, wi)
      ensures forall b: nat :: 0 < b && Away(old(views), b) ==> Away(views, b)
      ensures forall k :: 0 <= k < |nodes| ==> nodes[k] in old(nodes) || fresh(nodes[k])
    {
      hide Linked, Sound, Readable, ReadyLen, WaitingLen, OpenFrom, BlankFrom, Pending, SidesKept, Apart, AllFit;
      AddNode(0);
    }

    /** write = flush */
    method WriteHere()
      requires Linked()
      modifies this`write, this`wi
      ensures Linked() && wi == fi
    {
      write := flush;
      wi := fi;
    }

    /** The first loop of MallocAck: find the node in which byte `n` lies, and end it there. */
    method AckLoop(n: nat)
      requires Linked() && fi < |views| && OpenFrom(views, fi) && n <= WaitingLen(views, fi)
      modifies this`write, this`wi, this`views, nodes
      ensures Linked() && fi <= wi < |views| && 0 <= Keeps(old(views), fi, n) && wi == AckNode(old(views), fi, Keeps(old(views), fi, n))
      ensures |views| == |old(views)| && views == old(views)[wi := views[wi]]
      ensures Acked(old(views), fi, Keeps(old(views), fi, n)) == BlankedAt(views, wi, views[wi], |views|)
    {
      hide Linked, WaitingLen, Acked, AckNode, BlankedAt;
      ghost var vs := views;
      WriteHere();
      if n == 0 {
        AckedHere(vs, fi, vs[fi].malloc - vs[fi].buf.len);
        return;
      }
      var ack := n;
      var nd := WriteNode();
      var l := nd.v.malloc - nd.v.buf.len;
      while l < ack
        invariant Linked() && fi <= wi < |views| && nd == nodes[wi] && nd.v == views[wi] && l == nd.v.malloc - nd.v.buf.len
        invariant 0 < ack <= WaitingLen(vs, wi)
        invariant AckNode(vs, wi, ack) == AckNode(vs, fi, n) && Acked(vs, wi, ack) == Acked(vs, fi, n)
        modifies this`write, this`wi
        decreases |views| - wi
      {
        AckedOn(vs, wi, ack);
        Advance();
        ack := ack - l;
        nd := WriteNode();
        l := nd.v.malloc - nd.v.buf.len;
      }
      AckedHere(vs, wi, ack);
      Update(nd, wi, nd.v.(malloc := ack + nd.v.buf.len));
      SameBlanked(vs, views, wi);
    }

    /** The second loop of MallocAck: discard the rest. */
    method BlankLoop()
      requires Linked() && wi < |views|
      modifies this`views, nodes
      ensures Linked() && views == BlankedAt(old(views), wi, old(views)[wi], |old(views)|)
    {
      hide Linked, BlankedAt;
      ghost var k, vs := wi + 1, views;
      BlankNone(vs, wi);
      var node := BehindWrite();
      while node != null
        invariant Linked() && wi < k <= |nodes| == |vs| && node == At(k) && views == BlankedAt(vs, wi, vs[wi], k)
        decreases |nodes| - k
      {
        BlankStep(vs, wi, vs[wi], k);
        var v := ChainView(node, k);
        Update(node, k, v.(off := 0, malloc := 0, buf := v.buf.(len := 0)));
        node := NodeNext(node, k);
        k := k + 1;
      }
    }

    /** MallocAck: the first `n` pending bytes are kept and the rest is discarded, except that zero
        keeps what was malloced in the flush node itself. */
    method MallocAck(n: int) returns (ok: bool)
      requires Valid() && wi < |views| && Plain(views, fi) && Own(views, fi) && n <= WaitingLen(views, fi)
      modifies this`mallocSize, this`write, this`wi, this`views, nodes
      ensures ok == (0 <= n)
      ensures !ok ==> Valid() && views == old(views) && wi == old(wi) && mallocSize == old(mallocSize)
      ensures ok ==> Valid() && wi < |views| && Bytes() == old(Bytes()) && mallocSize == n
      ensures ok ==> 0 <= Keeps(old(views), fi, n) <= |old(Tail())| && Tail() == old(Tail())[..Keeps(old(views), fi, n)]
      ensures ok ==> (Counted() <==> Keeps(old(views), fi, n) == n) && Cuts(old(views), views, fi, Keeps(old(views), fi, n))
      ensures ok ==> Settled(views, fi) && Plain(views, fi) && Own(views, fi) && (old(SealedTo(views, fi)) ==> SealedTo(views, fi))
    {
      hide Linked, Sound, Readable, ReadyLen, WaitingLen, Away, Pending, AllFit, Settled, SealedTo, Own, Text, Acked, AckNode, BlankedAt, OpenFrom, Plain, Cuts;
      if n < 0 { return false; }
      mallocSize := n;
      KeepsFits(views, fi, n);
      ghost var m := Keeps(views, fi, n);
      AckSound(mem.blocks, views, ri, fi, wi, m);
      AckSides(views, fi, fi, m);
      AckCuts(mem.blocks, views, fi, m);
      AckLoop(n);
      BlankLoop();
      ok := true;
    }

    /** first .. last are linked in behind `nd`. */
    method InsertBehind(nd: Node, ghost k: nat, first: Node, last: Node, ghost ms: seq<Node>, ghost ws: seq<View>)
      requires Linked() && ri <= fi <= k <= wi < |nodes| && nodes[k] == nd
      requires Chained(ms, ws, null) && 0 < |ms| && ms[0] == first && ms[|ms| - 1] == last && Distinct(nodes, ms)
      modifies this`nodes, this`views, this`wi, nd`next, last`next
      ensures Linked() && nodes == old(nodes)[..k + 1] + ms + old(nodes)[k + 1..] && views == old(views)[..k + 1] + ws + old(views)[k + 1..]
      ensures wi == if old(wi) == k then k else old(wi) + |ms|
    {
      hide Chained;
      ghost var ns, vs, rest, us := nodes[..k + 1], views[..k + 1], nodes[k + 1..], views[k + 1..];
      ChainedPrefix(nodes, views, null, k);
      ChainedSuffix(nodes, views, null, k + 1);
      ChainedDistinct(nodes, views, k + 1);
      var nx := NodeNext(nd, k);
      Interlink(nd, first, last, nx, ns, vs, ms, ws, rest, us);
      nodes, views := ns + ms + rest, vs + ws + us;
      wi := if wi == k then k else wi + |ms|;
    }

    /** Find origin: the node in which the byte after the first `at` pending ones lies. */
    method FindOrigin(at: nat, ghost x: View, ghost split: bool) returns (nd: Node, rest: nat, ghost k: nat)
      requires Shape() && wi < |views| && at <= WaitingLen(views, fi)
      ensures fi <= k <= wi && nodes[k] == nd && Open(views[k]) && rest <= views[k].malloc - views[k].buf.len
      ensures Spliced(views, fi, at, x, split) == Spliced(views, k, rest, x, split)
      ensures at == WaitingLen(views, fi) ==> rest == views[k].malloc - views[k].buf.len
    {
      hide Linked, Sound, Spliced, WaitingLen, AllFit;
      nd := FlushNode();
      rest, k := at, fi;
      var v := ChainView(nd, k);
      FlushRest(mem.blocks, views, ri, fi, wi);
      WaitingStep(views, k);
      while v.malloc - v.buf.len < rest
        invariant fi <= k <= wi && nodes[k] == nd && v == views[k] && Open(v) && rest <= WaitingLen(views, k)
        invariant Spliced(views, fi, at, x, split) == Spliced(views, k, rest, x, split)
        invariant at == WaitingLen(views, fi) ==> rest == WaitingLen(views, k)
        invariant WaitingLen(views, k) == v.malloc - v.buf.len + WaitingLen(views, k + 1) && 0 <= WaitingLen(views, k + 1)
        decreases |views| - k
      {
        SplicedAfter(views, k, rest, x, split);
        assert k != wi;
        var nx := NodeNext(nd, k);
        rest := rest - (v.malloc - v.buf.len);
        nd, k := nx, k + 1;
        v := ChainView(nd, k);
        WaitingStep(views, k);
      }
    }

    /** The node `nd` is split `rest` bytes behind its readable part, and `data` put in between. */
    method SplitIn(nd: Node, ghost k: nat, rest: nat, data: Node)
      requires Linked() && ri <= fi <= k <= wi < |nodes| && nodes[k] == nd
      requires data.next == null && data !in nodes
      modifies this`nodes, this`views, this`wi, nodes, data
      ensures Linked() && wi < |nodes|
      ensures views == old(views)[..k] + Insert(old(views)[k], rest, old(data.v), true) + old(views)[k + 1..]
      ensures forall i :: 0 <= i < |nodes| ==> nodes[i] in old(nodes) || nodes[i] == data || fresh(nodes[i])
    {
      hide Linked, Chained;
      var v := ChainView(nd, k);
      var at := v.buf.len + rest;
      var more := new Node(View(v.buf.(len := at), at, v.malloc, false, false));
      ghost var vs, x := views, data.v;
      Update(nd, k, v.(malloc := at, readonly := true));
      data.next := more;
      ChainedTwo(data, more);
      InsertBehind(nd, k, data, more, [data, more], [x, more.v]);
      InsertedViews(vs, k, [vs[k].(malloc := at, readonly := true)], [x, more.v]);
    }

    /** The node `nd` is split, or not, and `data` linked in behind it. */
    method SpliceIn(nd: Node, ghost k: nat, rest: nat, data: Node, split: bool)
      requires Linked() && ri <= fi <= k <= wi < |nodes| && nodes[k] == nd
      requires data.next == null && data !in nodes
      modifies this`nodes, this`views, this`wi, nodes, data
      ensures Linked() && wi < |nodes|
      ensures views == old(views)[..k] + Insert(old(views)[k], rest, old(data.v), split) + old(views)[k + 1..]
      ensures forall i :: 0 <= i < |nodes| ==> nodes[i] in old(nodes) || nodes[i] == data || fresh(nodes[i])
    {
      hide Linked, Chained;
      ghost var vs, x := views, data.v;
      if split {
        SplitIn(nd, k, rest, data);
      } else {
        ChainedOne(data);
        InsertBehind(nd, k, data, data, [data], [x]);
        InsertedViews(vs, k, [vs[k]], [x]);
      }
    }

    /** adjust b.write */
    method ToEnd()
      requires Linked() && wi < |nodes|
      modifies this`write, this`wi
      ensures Linked() && wi + 1 == |nodes|
    {
      hide Linked;
      var nd := WriteNode();
      while nd.next != null
        invariant Linked() && wi < |nodes| && nd == nodes[wi] && nd.next == At(wi + 1)
        decreases |nodes| - wi
      {
        Advance();
        nd := WriteNode();
      }
    }

    /** WriteDirect: `extra` is spliced in before the last `remainLen` pending bytes, without moving
        those: whatever is stored later through slices from Malloc lands where it did. */
    method WriteDirect(extra: Slice, remainLen: int)
      requires Valid() && wi < |views| && Settled(views, fi) && Counted() && remainLen <= mallocSize
      requires InMemory(mem.blocks, extra) && (cachePeek.cap > 0 ==> extra.block != cachePeek.block)
      modifies this`mallocSize, this`write, this`nodes, this`views, this`wi, nodes
      ensures Valid() && wi < |views| && Settled(views, fi) && Counted() && Bytes() == old(Bytes())
      ensures extra.len == 0 || remainLen < 0 ==> views == old(views) && mallocSize == old(mallocSize) && Tail() == old(Tail())
      ensures 0 < extra.len && 0 <= remainLen ==>
                var at := old(mallocSize) - remainLen;
                && mallocSize == old(mallocSize) + extra.len && at <= |old(Tail())|
                && Tail() == old(Tail())[..at] + Text(mem.blocks, extra) + old(Tail())[at..]
                && Splices(old(views), views, fi, at, extra)
      ensures old(SealedTo(views, fi)) ==> SealedTo(views, fi)
      ensures old(Apart(views, wi) && Away(views, extra.block) && LastAlone(views)) ==> Apart(views, wi)
      ensures ReadyKept(old(views), views) && GrownOrOld(old(nodes), nodes)
    {
      hide Linked, Sound, Readable, ReadyLen, WaitingLen, Pending, AllFit, Settled, SealedTo, Text, Spliced, Splices, Apart, Insert, OpenFrom, Away, LastAlone, Wrapping, ReadyAway;
      if extra.len == 0 || remainLen < 0 { return; }
      ghost var vs, x, split := views, Wrapping(extra), remainLen > 0;
      var at: nat := mallocSize - remainLen;
      DirectFacts(mem.blocks, vs, ri, fi, wi, at, extra, split);
      var nd: Node, rest: nat;
      ghost var k: nat;
      nd, rest, k := FindOrigin(at, x, split);
      SplicedHere(vs, k, rest, x, split);
      SplicedApart(vs, wi, k, rest, extra, split, cachePeek);
      var data := new Node(View(Slice(extra.block, extra.lo, 0, extra.cap), 0, extra.len, true, false));
      assert data.v == x by { WrappingIs(extra); }
      SpliceIn(nd, k, rest, data, remainLen > 0);
      ToEnd();
      mallocSize := mallocSize + extra.len;
    }

    /** write.next = buf.read; write = buf.write; write.next = nil */
    method JoinChain(buf: LinkBuffer)
      requires buf != this && Linked() && ri <= fi <= wi < |nodes| && buf.Linked() && buf.ri <= buf.wi < |buf.nodes| && Distinct(nodes, buf.nodes)
      modifies this`write, this`nodes, this`views, this`wi, nodes, buf.nodes
      ensures Linked() && nodes == old(nodes)[..old(wi) + 1] + buf.nodes[buf.ri..buf.wi + 1]
      ensures views == Continued(old(views), old(wi), Core(buf.views, buf.ri, buf.wi)) && wi + 1 == |views|
      ensures forall k :: 0 <= k < |nodes| ==> nodes[k] in old(nodes) || nodes[k] in buf.nodes
    {
      hide Chained, Distinct;
      ghost var ns, vs := nodes[..wi + 1], views[..wi + 1];
      ghost var ms, ws := buf.nodes[buf.ri..buf.wi + 1], Core(buf.views, buf.ri, buf.wi);
      ChainedPrefix(nodes, views, null, wi);
      ChainedMiddle(buf.nodes, buf.views, buf.ri, buf.wi);
      DistinctParts(nodes, wi, buf.nodes, buf.ri, buf.wi);
      var first, last := buf.read, buf.write;
      LinkTwo(write, first, last, ns, vs, At(wi + 1), ms, ws, buf.At(buf.wi + 1));
      write := last;
      nodes, views, wi := ns + ms, vs + ws, wi + 1 + buf.wi - buf.ri;
    }

    /** WriteBuffer: the bytes of `buf`, readable and pending, come behind the pending bytes; its length
        counts at once, although nothing of it can be read before the next Flush.  `buf` is closed. */
    method WriteBuffer(buf: LinkBuffer?)
      requires Valid() && wi < |views|
      requires buf != null ==> buf != this && buf.mem == mem && buf.Valid() && buf.wi < |buf.views| && buf.Counted()
      requires buf != null ==> SealedTo(buf.views, buf.fi) && Distinct(nodes, buf.nodes) && (cachePeek.cap > 0 ==> Away(buf.views, cachePeek.block))
      modifies this`length, this`mallocSize, this`write, this`nodes, this`views, this`wi, nodes, buf, if buf == null then [] else buf.nodes
      ensures Valid() && wi < |views| && Bytes() == old(Bytes()) && (old(Counted()) ==> Counted())
      ensures old(SealedTo(views, fi)) ==> SealedTo(views, fi)
      ensures buf == null || old(buf.length + buf.mallocSize) <= 0 ==> views == old(views) && Tail() == old(Tail())
      ensures buf != null && old(buf.length + buf.mallocSize) > 0 ==>
                && Tail() == old(Tail()) + (old(buf.Bytes()) + old(buf.Tail()))
                && length == old(length) + old(buf.length) && mallocSize == old(mallocSize) + old(buf.mallocSize)
                && buf.length == 0 && buf.mallocSize == 0 && buf.head == buf.read == buf.flush == buf.write == null
      ensures buf != null && old(Apart(views, wi) && Apart(buf.views, buf.wi) && Foreign(views, buf.views)) ==> Apart(views, wi)
      ensures forall k :: 0 <= k < |nodes| ==> nodes[k] in old(nodes) || (buf != null && nodes[k] in old(buf.nodes))
    {
      hide Linked, Sound, Readable, ReadyLen, WaitingLen, Pending, AllFit, SealedTo, Text, Apart, Foreign, OpenFrom, Away, Distinct, Continued, Core;
      if buf == null || buf.length + buf.mallocSize <= 0 { return; }
      AppendSound(mem.blocks, views, ri, fi, wi, buf.views, buf.ri, buf.fi, buf.wi);
      AppendFacts(views, wi, buf.views, buf.ri, buf.wi, cachePeek);
      JoinChain(buf);
      length := length + buf.length;
      mallocSize := mallocSize + buf.mallocSize;
      buf.length, buf.mallocSize := 0, 0;
      buf.head, buf.read, buf.flush, buf.write := null, null, null, null;
    }

    // -------------------------------------------------------------- booking, for the poller

    /** What holds of an input buffer between bookings. */
    ghost predicate Bookable()
      reads this, nodes, mem
    {
      && Valid() && wi + 1 == |views| && Settled(views, fi) && Quiet(views, fi) && Own(views, fi)
      && (views[wi].readonly ==> views[wi].buf.cap == views[wi].malloc)
    }

    /** book: memory behind everything readable, for the kernel to fill. */
    method Book(bookSize: nat, maxSize: nat) returns (p: Slice)
      requires Bookable() && 0 < maxSize
      modifies this`write, this`nodes, this`views, this`wi, nodes, mem`blocks
      ensures Shape() && wi + 1 == |views| && p.len <= bookSize && (0 < bookSize ==> 0 < p.len) && p.block == views[wi].buf.block && !views[wi].readonly
      ensures Bytes() == old(Bytes()) && Hands(old(views), views, fi, p) && InMemory(mem.blocks, p) && Untouched(old(views), p)
      ensures OnlyLast(views, fi, wi) && Settled(views, fi) && views[wi].malloc == views[wi].buf.len + p.len
      ensures ReadyLen(views, ri, |views|) == old(ReadyLen(views, ri, |views|))
      ensures GrownNodes(old(nodes), nodes) && Extends(old(mem.blocks), mem.blocks) && AwayKept(old(views), views, |old(mem.blocks)|)
      ensures Own(views, fi) && Apart(views, wi)
    {
      hide Linked, Sound, Readable, ReadyLen, WaitingLen, OpenFrom, BlankFrom, Pending, SidesKept, Apart, Own, AllFit, Extends, GrownChain, Text, Hands, AwayKept, Untouched, Settled, Quiet, OnlyLast, PeekAgrees;
      OwnHere(mem.blocks, views, ri, fi, wi);
      ExtendsRefl(mem.blocks);
      SidesRefl(views, fi, wi);
      GrownNone(views);
      var nd := WriteNode();
      CapFits(mem.blocks, views, ri, fi, wi);
      var l: nat := nd.v.buf.cap - nd.v.malloc;
      if l == 0 {
        l := maxSize;
        AddNode(maxSize);
        GrownOne(old(views), old(wi), views);
        nd := WriteNode();
      }
      if l > bookSize { l := bookSize; }
      p := Slice(nd.v.buf.block, nd.v.buf.lo + nd.v.malloc, l, l);
      ReserveFacts(mem.blocks, old(views), views, ri, fi, old(wi), wi, l, |old(mem.blocks)|);
      BookShape(old(views), views, fi, wi, l);
      Update(nd, wi, nd.v.(malloc := nd.v.malloc + l));
      SidesApart(old(views), fi, old(wi), views, fi, wi);
    }

    /** bookAck: the first `n` booked bytes become readable, the rest is given back. */
    method BookAck(n: nat) returns (len: int)
      requires Shape() && wi + 1 == |views| && OnlyLast(views, fi, wi) && Settled(views, fi) && n <= views[wi].malloc - views[wi].buf.len
      modifies this`length, this`flush, this`fi, this`views, nodes
      ensures Shape() && fi == wi && wi + 1 == |views| && views == old(views)[wi := Sealed(Trimmed(old(views)[wi], n))]
      ensures n <= |old(Tail())| && Bytes() == old(Bytes()) + old(Tail())[..n] && Tail() == []
      ensures length == old(length) + n == len && ReadyLen(views, ri, |views|) == old(ReadyLen(views, ri, |views|)) + n
    {
      hide Linked, Sound, Readable, ReadyLen, WaitingLen, OpenFrom, Pending, AllFit, SealedFrom, OnlyLast, Settled, Sealed, Trimmed;
      ghost var vs := views;
      TrimSound(mem.blocks, vs, ri, fi, wi, n);
      FlushSound(mem.blocks, vs[wi := Trimmed(vs[wi], n)], ri, fi, wi);
      SealedTrimmed(vs[wi], n);
      var nd := WriteNode();
      var v := nd.v;
      Update(nd, wi, v.(malloc := n + v.buf.len));
      Update(nd, wi, v.(malloc := n + v.buf.len, buf := v.buf.(len := n + v.buf.len)));
      assert views == vs[wi := Sealed(Trimmed(vs[wi], n))];
      FlushHere();
      length := length + n;
      len := length;
    }

    /** One round of the poller: book, let the kernel fill in what it has of `data`, and ack that much. */
    method Deliver(data: seq<byte>, bookSize: nat, maxSize: nat) returns (k: nat)
      requires Bookable() && 0 < maxSize && 0 < bookSize
      modifies this`length, this`flush, this`write, this`nodes, this`views, this`fi, this`wi, nodes, mem`blocks
      ensures Bookable() && k <= |data| && k <= bookSize && (0 < |data| ==> 0 < k)
      ensures Bytes() == old(Bytes()) + data[..k] && Tail() == [] && length == old(length) + k && GrownNodes(old(nodes), nodes)
    {
      hide Linked, Sound, Readable, ReadyLen, WaitingLen, OpenFrom, Pending, AllFit, OnlyLast, Settled, Sealed, Trimmed, Quiet, Own, Apart, Text, Hands, Untouched, Stored, Extends, AwayKept, OnlySlice;
      var p := Book(bookSize, maxSize);
      k := if |data| < p.len then |data| else p.len;
      var junk := seq(p.len - k, _ => 0);
      ghost var m1 := mem.blocks;
      DeliverFacts(old(mem.blocks), m1, old(views), views, old(ri), fi, old(wi), wi, p, data[..k] + junk);
      mem.Store(p, data[..k] + junk);
      CacheStored(old(mem.blocks), mem.blocks, old(views), views, cachePeek, p, wi);
      AckShape(views, fi, wi, k);
      AckOwn(views, fi, wi, k);
      SealedTrimmed(views[wi], k);
      var _ := BookAck(k);
    }

    /** One turn: what arrives before the reader's next load is booked, stored and acked, round by round. */
    method Pass(env: Feed, stream: seq<byte>, bookSize: nat, maxSize: nat) returns (env': Feed, rest: seq<byte>)
      requires Bookable() && 0 < bookSize && 0 < maxSize && env.have == |Bytes()|
      modifies this`length, this`flush, this`write, this`nodes, this`views, this`fi, this`wi, nodes, mem`blocks
      ensures Bookable() && GrownNodes(old(nodes), nodes)
      ensures Bytes() + rest == old(Bytes()) + stream && old(Bytes()) <= Bytes()
      ensures env' == After(env, |Bytes()| + |rest|) && env'.have == |Bytes()|
    {
      hide Linked, Sound, Readable, ReadyLen, WaitingLen, AllFit, Settled, Quiet, Own, Text, OpenFrom, Away;
      rest := stream;
      var need: nat := if env.turns == [] then 0 else if env.turns[0].bytes < |stream| then env.turns[0].bytes else |stream|;
      while 0 < need
        invariant Bookable() && GrownNodes(old(nodes), nodes) && need <= |rest|
        invariant Bytes() + rest == old(Bytes()) + stream && old(Bytes()) <= Bytes()
        invariant |Bytes()| + need == After(env, |old(Bytes())| + |stream|).have
        decreases need
      {
        ghost var before := Bytes();
        var k := Deliver(rest[..need], bookSize, maxSize);
        assert rest[..need][..k] == rest[..k];
        DeliveredOn(before, rest, k);
        rest, need := rest[k..], need - k;
      }
      env' := After(env, env.have + |stream|);
    }

    /** Len(), after what happens before it. */
    method LoadLen(env: Feed, stream: seq<byte>, bookSize: nat, maxSize: nat) returns (len: nat, env': Feed, rest: seq<byte>)
      requires Bookable() && 0 < bookSize && 0 < maxSize && env.have == |Bytes()|
      modifies this`length, this`flush, this`write, this`nodes, this`views, this`fi, this`wi, nodes, mem`blocks
      ensures Bookable() && GrownNodes(old(nodes), nodes)
      ensures Bytes() + rest == old(Bytes()) + stream && old(Bytes()) <= Bytes()
      ensures env' == After(env, |Bytes()| + |rest|) && env'.have == |Bytes()| == len
    {
      hide Linked, Sound, Readable, ReadyLen, WaitingLen, AllFit, Settled, Quiet, Own, Text, OpenFrom, Away, After, GrownNodes;
      env', rest := Pass(env, stream, bookSize, maxSize);
      SettledLen(mem.blocks, views, ri, fi);
      len := length;
    }

    /** Len() once more, the closing word, and sleep: one round of the loop of waitRead. */
    method AwaitRound(n: nat, env: Feed, stream: seq<byte>, bookSize: nat, maxSize: nat)
      returns (done: bool, ok: bool, env': Feed, rest: seq<byte>)
      requires Bookable() && 0 < bookSize && 0 < maxSize && env.have == |Bytes()|
      modifies this`length, this`flush, this`write, this`nodes, this`views, this`fi, this`wi, nodes, mem`blocks
      ensures Bookable() && GrownNodes(old(nodes), nodes)
      ensures Bytes() + rest == old(Bytes()) + stream && old(Bytes()) <= Bytes() && env'.have == |Bytes()|
      ensures var total := |Bytes()| + |rest|;
              if done then WaitLoop(env, n, total) == Wait(ok, env')
              else |env'.turns| < |env.turns| && WaitLoop(env, n, total) == WaitLoop(env', n, total)
    {
      hide Linked, Sound, Readable, ReadyLen, WaitingLen, AllFit, Settled, Quiet, Own, Text, OpenFrom, Away, Pending, Consumed, Extends, PeekAgrees, After;
      var l: nat;
      l, env', rest := LoadLen(env, stream, bookSize, maxSize);
      if n <= l { return true, true, env', rest; }
      env', rest := Pass(env', rest, bookSize, maxSize);
      if env'.closed { return true, false, env', rest; }
      var err := WokenByError(env');
      env', rest := Pass(env', rest, bookSize, maxSize);
      done, ok := env'.closed && err, false;
    }

    /** waitRead: success exactly when a load of the length finds `n` bytes before the wait is given up. */
    method Await(n: nat, env: Feed, stream: seq<byte>, bookSize: nat, maxSize: nat) returns (ok: bool, env': Feed, rest: seq<byte>)
      requires Bookable() && 0 < bookSize && 0 < maxSize && env.have == |Bytes()|
      modifies this`length, this`flush, this`write, this`nodes, this`views, this`fi, this`wi, nodes, mem`blocks
      ensures Bookable() && GrownNodes(old(nodes), nodes)
      ensures Bytes() + rest == old(Bytes()) + stream && old(Bytes()) <= Bytes()
      ensures Wait(ok, env') == WaitRead(env, n, |Bytes()| + |rest|) && env'.have == |Bytes()|
    {
      hide Linked, Sound, Readable, ReadyLen, WaitingLen, AllFit, Settled, Quiet, Own, Text, OpenFrom, Away, Pending, Consumed, Extends, PeekAgrees, After, WaitLoop;
      var l: nat;
      l, env', rest := LoadLen(env, stream, bookSize, maxSize);
      ok := n <= l;
      var done := ok;
      ghost var all := Bytes() + rest;
      while !done
        invariant Bookable() && GrownNodes(old(nodes), nodes) && env'.have == |Bytes()|
        invariant Bytes() + rest == all && old(Bytes()) <= Bytes()
        invariant WaitRead(env, n, |all|) == if done then Wait(ok, env') else WaitLoop(env', n, |all|)
        decreases if done then 0 else 1 + |env'.turns|
      {
        done, ok, env', rest := AwaitRound(n, env', rest, bookSize, maxSize);
      }
    }

    /** Next does not disturb the poller's side. */
    method TakeLine(n: nat) returns (p: Slice)
      requires Bookable() && n <= |Bytes()|
      modifies this, nodes, mem`blocks
      ensures Bookable() && nodes == old(nodes)
      ensures InMemory(mem.blocks, p) && Text(mem.blocks, p) == old(Bytes())[..n] && Bytes() == old(Bytes())[n..]
    {
      hide Linked, Readable, ReadyLen, WaitingLen, AllFit, Settled, Quiet, Own, Text, OpenFrom, Away, Pending, Consumed, Extends, PeekAgrees;
      var ok: bool;
      ghost var vs := views;
      p, ok := Next(n);
      ReadBookable(vs, views, fi, wi);
      NilText(mem.blocks);
    }

    /** A wait for one byte more than was searched, and a search behind that.  `l` is the length loaded
        in between, or, after a failure, the length to be taken. */
    method Scan(delim: byte, seen: nat, env: Feed, stream: seq<byte>, bookSize: nat, maxSize: nat)
      returns (ok: bool, l: nat, i: int, env': Feed, rest: seq<byte>)
      requires Bookable() && 0 < bookSize && 0 < maxSize && env.have == |Bytes()| && seen <= |Bytes()|
      modifies this`length, this`flush, this`write, this`nodes, this`views, this`fi, this`wi, nodes, mem`blocks
      ensures Bookable() && GrownNodes(old(nodes), nodes)
      ensures Bytes() + rest == old(Bytes()) + stream && old(Bytes()) <= Bytes() && env'.have == |Bytes()|
      ensures var all := Bytes() + rest;
              var w := WaitRead(env, seen + 1, |all|);
              ok == w.ok && l == After(w.feed, |all|).have && l <= |Bytes()| && env' == After(After(w.feed, |all|), |all|)
      ensures ok ==> seen < l && i == First((Bytes() + rest)[..|Bytes()|], delim, seen)
    {
      hide Linked, Sound, Readable, ReadyLen, WaitingLen, AllFit, Settled, Quiet, Own, Text, OpenFrom, Away, Pending, Consumed, Extends, PeekAgrees, After, WaitRead, First;
      ok, env', rest := Await(seen + 1, env, stream, bookSize, maxSize);
      l, env', rest := LoadLen(env', rest, bookSize, maxSize);
      env', rest := Pass(env', rest, bookSize, maxSize);
      i := -1;
      if ok {
        i := IndexByte(delim, seen);
        FoundHere(Bytes() + rest, Bytes(), rest, delim, seen, i);
      }
    }

    /** Next on the connection: two more loads, and the line is taken. */
    method Finish(n: nat, env: Feed, stream: seq<byte>, bookSize: nat, maxSize: nat)
      returns (line: Slice, env': Feed, rest: seq<byte>)
      requires Bookable() && 0 < bookSize && 0 < maxSize && env.have == |Bytes()| && n <= |Bytes()|
      modifies this, nodes, mem`blocks
      ensures Bookable() && InMemory(mem.blocks, line) && Text(mem.blocks, line) == (old(Bytes()) + stream)[..n]
      ensures Text(mem.blocks, line) + Bytes() + rest == old(Bytes()) + stream
      ensures var total := |old(Bytes())| + |stream|; env' == After(After(env, total), total)
    {
      hide Linked, Sound, Readable, ReadyLen, WaitingLen, AllFit, Settled, Quiet, Own, Text, OpenFrom, Away, Pending, Consumed, Extends, PeekAgrees, After;
      env', rest := Pass(env, stream, bookSize, maxSize);
      env', rest := Pass(env', rest, bookSize, maxSize);
      TextBeside(old(Bytes()) + stream, Bytes(), n, rest);
      line := TakeLine(n);
    }

    /** The loop of Until: each search starts where the last one ended. */
    method ScanAll(delim: byte, env: Feed, stream: seq<byte>, bookSize: nat, maxSize: nat)
      returns (ok: bool, l: nat, i: int, ghost seen: nat, env': Feed, rest: seq<byte>)
      requires Bookable() && 0 < bookSize && 0 < maxSize && env.have == |Bytes()|
      modifies this`length, this`flush, this`write, this`nodes, this`views, this`fi, this`wi, nodes, mem`blocks
      ensures Bookable() && GrownNodes(old(nodes), nodes) && Bytes() + rest == old(Bytes()) + stream && env'.have == |Bytes()|
      ensures var all := old(Bytes()) + stream;
              && (if ok then 0 <= i < |Bytes()| else l <= |Bytes()|)
              && UntilLine(all, env, 0, delim)
                 == if ok then Line(true, i + 1, seen, After(After(env', |all|), |all|)) else Line(false, l, seen, env')
    {
      hide Linked, Sound, Readable, ReadyLen, WaitingLen, AllFit, Settled, Quiet, Own, Text, OpenFrom, Away, Pending, Consumed, Extends, PeekAgrees, After, WaitRead, First, UntilLine;
      var n: nat := 0;
      env', rest := env, stream;
      ghost var all := Bytes() + stream;
      while true
        invariant Bookable() && GrownNodes(old(nodes), nodes) && Bytes() + rest == all && env'.have == |Bytes()| && n <= |Bytes()|
        invariant UntilLine(all, env, 0, delim) == UntilLine(all, env', n, delim)
        decreases |all| - n
      {
        UntilStep(all, env', n, delim);
        ok, l, i, env', rest := Scan(delim, n, env', rest, bookSize, maxSize);
        seen := n;
        if !ok || i >= 0 { return; }
        n := l;
      }
    }

    /** Until of a connection, while more bytes arrive: a line that is found ends with the first delimiter
        of all that is sent; if a wait fails the text is what was there, and no delimiter is among the
        `seen` bytes of earlier passes. */
    method AwaitUntil(delim: byte, env: Feed, stream: seq<byte>, bookSize: nat, maxSize: nat)
      returns (line: Slice, ok: bool, ghost seen: nat, env': Feed, rest: seq<byte>)
      requires Bookable() && 0 < bookSize && 0 < maxSize && env.have == |Bytes()|
      modifies this, nodes, mem`blocks
      ensures Bookable() && InMemory(mem.blocks, line)
      ensures Text(mem.blocks, line) + Bytes() + rest == old(Bytes()) + stream
      ensures Line(ok, |Text(mem.blocks, line)|, seen, env') == UntilLine(old(Bytes()) + stream, env, 0, delim)
      ensures var t := Text(mem.blocks, line);
              if ok then 0 < |t| && t[|t| - 1] == delim && delim !in t[..|t| - 1] else seen <= |t| && delim !in t[..seen]
    {
      hide Linked, Sound, Readable, ReadyLen, WaitingLen, AllFit, Settled, Quiet, Own, Text, OpenFrom, Away, Pending, Consumed, Extends, PeekAgrees, After, UntilLine;
      ghost var all := Bytes() + stream;
      FoundIsFirst(all, env, 0, delim);
      var l: nat, i: int;
      ok, l, i, seen, env', rest := ScanAll(delim, env, stream, bookSize, maxSize);
      if ok {
        line, env', rest := Finish(i + 1, env', rest, bookSize, maxSize);
      } else {
        TextBeside(all, Bytes(), l, rest);
        line := TakeLine(l);
      }
      LineParts(all, Text(mem.blocks, line), seen);
    }

    /** The acknowledgement of a write: `n` bytes are skipped and what was read is released. */
    method OutputAck(n: nat)
      requires Valid() && wi < |views| && Settled(views, fi) && n <= |Bytes()|
      modifies this, nodes
      ensures Valid() && wi < |views| && Settled(views, fi) && Bytes() == old(Bytes())[n..] && Tail() == old(Tail())
      ensures mallocSize == old(mallocSize) && mem.blocks == old(mem.blocks)
    {
      hide Linked, Sound, Readable, ReadyLen, AllFit, OpenFrom, Away, Pending, Text, Behind, SidesKept, PeekAgrees, Consumed, Extends, Settled;
      if n > 0 {
        var _ := Skip(n);
        ReleaseSettled();
      }
    }

    method ReleaseSettled()
      requires Valid() && wi < |views| && Settled(views, fi)
      modifies this`head, this`read, this`nodes, this`views, this`ri, this`fi, this`wi, this`caches, this`cachePeek
      ensures Valid() && wi < |views| && Settled(views, fi) && Bytes() == old(Bytes()) && Tail() == old(Tail())
    {
      hide Linked, Sound, Readable, ReadyLen, AllFit, OpenFrom, Away, Pending, Text, SidesKept, PeekAgrees, Settled;
      Release();
      SidesApart(old(views), old(fi), old(wi), views, fi, wi);
    }

    /** A user fills memory that Malloc handed out. */
    method Fill(p: Slice, t: seq<byte>)
      requires Valid() && wi < |views| && InMemory(mem.blocks, p) && |t| == p.len && ReadyAway(views, p)
      requires cachePeek.cap > 0 ==> cachePeek.block != p.block
      modifies mem`blocks
      ensures Valid() && Bytes() == old(Bytes()) && mem.blocks == Stored(old(mem.blocks), p, t)
    {
      hide Linked, Sound, Readable, ReadyLen, AllFit, OpenFrom, Away, Text, ReadyAway, Stored;
      StoreReadyAway(mem.blocks, views, ri, fi, wi, p, t);
      CacheBeside(mem.blocks, p, t, cachePeek);
      mem.Store(p, t);
    }
  }
}
