/** What a chain does not notice: changes elsewhere in memory, and reading, on the writer's side. */
module LinkChainFrames {
  import opened LinkChain
  import opened LinkChainWriter
  import opened LinkChainApart

  /** One more array, and the others as they were. */
  ghost predicate Grown(m: Blocks, m': Blocks)
  {
    |m'| == |m| + 1 && m'[..|m|] == m
  }

  /** No node of the chain uses array `b`. */
  ghost predicate Away(vs: seq<View>, b: nat)
  {
    forall k :: 0 <= k < |vs| ==> vs[k].buf.block != b
  }

  /** Every array the chain uses is as it was. */
  ghost predicate SameArrays(m: Blocks, m': Blocks, vs: seq<View>)
  {
    forall k :: 0 <= k < |vs| && vs[k].buf.block < |m| ==> vs[k].buf.block < |m'| && m'[vs[k].buf.block] == m[vs[k].buf.block]
  }

  lemma SameArraysFrame(m: Blocks, m': Blocks, vs: seq<View>, i: nat, j: nat, f: nat)
    requires AllFit(m, vs) && SameArrays(m, m', vs) && j <= |vs|
    ensures AllFit(m', vs) && Flat(m', vs, i, j) == Flat(m, vs, i, j)
    ensures OpenFrom(vs, f) ==> Pending(m', vs, f) == Pending(m, vs, f)
  {
    FlatFrame(m, vs, m', vs, i, j);
    if OpenFrom(vs, f) { WholeFrame(m, vs, m', vs, f + 1, 0); }
  }

  /** The chain and the positions of the four pointers.  A buffer made by Slice has nil for its
      flush and write pointers: they stand behind the last node. */
  ghost predicate Sound(m: Blocks, vs: seq<View>, r: nat, f: nat, w: nat): (ok: bool)
    ensures ok ==> AllFit(m, vs) && OpenFrom(vs, f) && r <= f <= w <= |vs| && 0 < |m|
  {
    && 0 < |m| && AllFit(m, vs) && r <= f <= w <= |vs| && (f == |vs| || w < |vs|)
    && OpenFrom(vs, f) && BlankFrom(vs, w + 1)
  }

  lemma NotAtEnd(m: Blocks, vs: seq<View>, r: nat, f: nat, w: nat)
    requires Sound(m, vs, r, f, w) && 0 < |Readable(m, vs, r, f)|
    ensures r < |vs| && r <= f
  {
  }

  /** Only the flush node is left. */
  lemma OnlyNode(m: Blocks, vs: seq<View>, r: nat, f: nat)
    requires AllFit(m, vs) && r < |vs| && r <= f
    ensures r == f ==> Readable(m, vs, r, f) == Ready(m, vs[r]) && |Ready(m, vs[r])| == vs[r].buf.len - vs[r].off
  {
    assert r == f ==> Flat(m, vs, r, f + 1) == Ready(m, vs[r]) + Flat(m, vs, r + 1, f + 1);
  }

  lemma StepSound(m: Blocks, vs: seq<View>, r: nat, f: nat, w: nat)
    requires Sound(m, vs, r, f, w) && r < |vs| && r < f && vs[r].off == vs[r].buf.len
    ensures Sound(m, vs, r + 1, f, w) && Readable(m, vs, r, f) == Readable(m, vs, r + 1, f)
    ensures ReadyLen(vs, r, |vs|) == ReadyLen(vs, r + 1, |vs|)
  {
    StepOver(m, vs, r, f);
  }

  /** Read offsets moved, up to the flush node; nothing else did. */
  ghost predicate Consumed(vs: seq<View>, vs': seq<View>, f: nat)
  {
    && |vs'| == |vs|
    && (forall k :: 0 <= k < |vs| ==> vs'[k] == vs[k].(off := vs'[k].off, nocopy := vs'[k].nocopy))
    && (forall k :: f < k < |vs| ==> vs'[k] == vs[k])
  }

  /** Reading leaves everything about the writer's side as it was. */
  lemma ConsumedKeeps(m: Blocks, vs: seq<View>, vs': seq<View>, f: nat, w: nat)
    requires Consumed(vs, vs', f) && AllFit(m, vs) && AllFit(m, vs') && OpenFrom(vs, f) && f <= w
    ensures OpenFrom(vs', f) && Pending(m, vs', f) == Pending(m, vs, f) && WaitingLen(vs', f) == WaitingLen(vs, f)
    ensures SealedTo(vs, f) ==> SealedTo(vs', f)
    ensures Settled(vs, f) ==> Settled(vs', f)
    ensures Plain(vs, f) ==> Plain(vs', f)
    ensures Own(vs, f) ==> Own(vs', f)
    ensures Apart(vs, w) ==> Apart(vs', w)
    ensures BlankFrom(vs, w + 1) ==> BlankFrom(vs', w + 1)
  {
    hide Ready, Whole, End, SameArray, Fits, Text;
    ConsumedApart(vs, vs', f, w);
    ConsumedPending(m, vs, vs', f);
  }

  lemma ConsumedPending(m: Blocks, vs: seq<View>, vs': seq<View>, f: nat)
    requires Consumed(vs, vs', f) && AllFit(m, vs) && AllFit(m, vs') && OpenFrom(vs, f)
    ensures OpenFrom(vs', f) && Pending(m, vs', f) == Pending(m, vs, f) && WaitingLen(vs', f) == WaitingLen(vs, f)
  {
    assert OpenFrom(vs', f);
    SameFrom(m, vs, vs', f);
    SameCount(vs, vs', f);
  }

  lemma SameFrom(m: Blocks, vs: seq<View>, vs': seq<View>, f: nat)
    requires |vs'| == |vs| && AllFit(m, vs) && AllFit(m, vs') && OpenFrom(vs, f) && OpenFrom(vs', f)
    requires f < |vs| ==> vs'[f].buf == vs[f].buf && vs'[f].malloc == vs[f].malloc
    requires forall k :: f < k < |vs| ==> vs'[k] == vs[k]
    ensures Pending(m, vs', f) == Pending(m, vs, f)
  {
    hide Fits, Ready, Whole, FlatWhole;
    WholeFrame(m, vs, m, vs', f + 1, 0);
  }

  lemma {:induction false} SameCount(vs: seq<View>, vs': seq<View>, i: nat)
    requires |vs'| == |vs|
    requires forall k :: i <= k < |vs| ==> vs'[k].buf == vs[k].buf && vs'[k].malloc == vs[k].malloc
    ensures WaitingLen(vs', i) == WaitingLen(vs, i)
    decreases |vs| - i
  {
    if i < |vs| { SameCount(vs, vs', i + 1); }
  }

  lemma ConsumedApart(vs: seq<View>, vs': seq<View>, f: nat, w: nat)
    requires Consumed(vs, vs', f)
    ensures Own(vs, f) ==> Own(vs', f)
    ensures Apart(vs, w) ==> Apart(vs', w)
  {
    forall i, j | 0 <= i < |vs| && 0 <= j < |vs|
      ensures SameArray(vs'[i], vs'[j]) == SameArray(vs[i], vs[j]) && End(vs'[j]) == End(vs[j])
    {
    }
    hide End, SameArray;
  }

  /** Skipping a whole node. */
  lemma PassSound(m: Blocks, vs: seq<View>, r: nat, f: nat, w: nat, n: nat)
    requires Sound(m, vs, r, f, w) && r < |vs| && n <= |Readable(m, vs, r, f)| && vs[r].buf.len - vs[r].off < n
    ensures var l := vs[r].buf.len - vs[r].off;
            && r < f && Sound(m, vs, r + 1, f, w) && l <= |Readable(m, vs, r, f)|
            && Readable(m, vs, r + 1, f) == Readable(m, vs, r, f)[l..]
            && ReadyLen(vs, r + 1, |vs|) == ReadyLen(vs, r, |vs|) - l
  {
    OnlyNode(m, vs, r, f);
    assert r < f ==> Readable(m, vs, r, f) == Ready(m, vs[r]) + Readable(m, vs, r + 1, f);
  }

  lemma MarkSound(m: Blocks, vs: seq<View>, r: nat, f: nat, w: nat)
    requires Sound(m, vs, r, f, w) && r < |vs| && r <= f
    ensures var vs' := vs[r := vs[r].(nocopy := true)];
            && Sound(m, vs', r, f, w) && Consumed(vs, vs', f) && Readable(m, vs', r, f) == Readable(m, vs, r, f)
            && ReadyLen(vs', r, |vs'|) == ReadyLen(vs, r, |vs|)
  {
    var vs' := vs[r := vs[r].(nocopy := true)];
    FlatFrame(m, vs, m, vs', r, if f < |vs| then f + 1 else |vs|);
    ReadyLenFrame(vs, vs', r, |vs|);
  }

  lemma ConsumedRefl(vs: seq<View>, f: nat)
    ensures Consumed(vs, vs, f)
  {
  }

  lemma ConsumedTrans(vs: seq<View>, vs': seq<View>, vs'': seq<View>, f: nat)
    requires Consumed(vs, vs', f) && Consumed(vs', vs'', f)
    ensures Consumed(vs, vs'', f)
  {
  }

  lemma OnlyArrayRefl(m: Blocks, b: nat)
    requires b < |m|
    ensures OnlyArray(m, m, b)
  {
  }

  lemma OnlyArrayTrans(m: Blocks, m': Blocks, m'': Blocks, b: nat)
    requires OnlyArray(m, m', b) && OnlyArray(m', m'', b)
    ensures OnlyArray(m, m'', b)
  {
  }

  lemma ConsumedAway(vs: seq<View>, vs': seq<View>, f: nat, b: nat)
    requires Consumed(vs, vs', f) && Away(vs, b)
    ensures Away(vs', b)
  {
  }

  lemma TakeSound(m: Blocks, vs: seq<View>, r: nat, f: nat, w: nat, n: nat)
    requires Sound(m, vs, r, f, w) && r < |vs| && n <= vs[r].buf.len - vs[r].off
    ensures var v, vs' := vs[r], vs[r := vs[r].(off := vs[r].off + n)];
            && Sound(m, vs', r, f, w) && Consumed(vs, vs', f)
            && n <= |Readable(m, vs, r, f)| && Readable(m, vs', r, f) == Readable(m, vs, r, f)[n..]
            && InMemory(m, Slice(v.buf.block, v.buf.lo + v.off, n, n))
            && Text(m, Slice(v.buf.block, v.buf.lo + v.off, n, n)) == Readable(m, vs, r, f)[..n]
            && ReadyLen(vs', r, |vs'|) == ReadyLen(vs, r, |vs|) - n
  {
    Consume(m, vs, r, f, n);
  }

  /** Only array `b` changed, and not in size. */
  ghost predicate OnlyArray(m: Blocks, m': Blocks, b: nat)
  {
    b < |m| == |m'| && |m'[b]| == |m[b]| && m' == m[b := m'[b]]
  }

  /** Changing an array the chain does not use changes nothing about the chain. */
  lemma ElsewhereSound(m: Blocks, m': Blocks, vs: seq<View>, r: nat, f: nat, w: nat)
    requires Sound(m, vs, r, f, w) && SameArrays(m, m', vs) && |m| <= |m'|
    ensures Sound(m', vs, r, f, w) && Readable(m', vs, r, f) == Readable(m, vs, r, f)
    ensures Pending(m', vs, f) == Pending(m, vs, f)
  {
    SameArraysFrame(m, m', vs, r, if f < |vs| then f + 1 else |vs|, f);
  }

  lemma AwaySame(m: Blocks, m': Blocks, vs: seq<View>, b: nat)
    requires Away(vs, b) && OnlyArray(m, m', b)
    ensures SameArrays(m, m', vs)
  {
  }

  /** The part of a slice from `k` on, `n` bytes of it. */
  function Part(p: Slice, k: nat, n: nat): Slice
  {
    Slice(p.block, p.lo + k, n, n)
  }

  lemma FillPart(m: Blocks, p: Slice, k: nat, t: seq<byte>)
    requires InMemory(m, p) && k + |t| <= p.len
    ensures InMemory(m, Part(p, k, |t|))
    ensures var m' := Stored(m, Part(p, k, |t|), t);
            && OnlyArray(m, m', p.block) && InMemory(m', p) && Text(m', p)[..k + |t|] == Text(m, p)[..k] + t
  {
    var m', a, x := Stored(m, Part(p, k, |t|), t), m[p.block], p.lo + k;
    var a' := m'[p.block];
    assert a' == a[..x] + t + a[x + |t|..];
    assert a'[p.lo..x] == a[p.lo..x] && a'[x..x + |t|] == t;
    assert a'[p.lo..x + |t|] == a'[p.lo..x] + a'[x..x + |t|];
    assert Text(m', p)[..k + |t|] == a'[p.lo..x + |t|] && Text(m, p)[..k] == a[p.lo..x];
  }

  /** The arrays there were are as they were. */
  ghost predicate Extends(m: Blocks, m': Blocks)
  {
    |m| <= |m'| && m'[..|m|] == m
  }

  lemma ExtendsRefl(m: Blocks)
    ensures Extends(m, m)
  {
  }

  lemma ExtendsSame(m: Blocks, m': Blocks, vs: seq<View>)
    requires Extends(m, m')
    ensures SameArrays(m, m', vs)
  {
    forall k | 0 <= k < |vs| && vs[k].buf.block < |m|
      ensures m'[vs[k].buf.block] == m[vs[k].buf.block]
    {
      assert m'[..|m|][vs[k].buf.block] == m'[vs[k].buf.block];
    }
  }

  /** A new array is filled. */
  lemma ExtendsFilled(m: Blocks, m': Blocks, m'': Blocks)
    requires Grown(m, m') && OnlyArray(m', m'', |m|)
    ensures Extends(m, m'')
  {
  }

  lemma NewAway(m: Blocks, vs: seq<View>)
    requires AllFit(m, vs)
    ensures Away(vs, |m|)
  {
  }

  lemma ExtendsText(m: Blocks, m': Blocks, s: Slice)
    requires Extends(m, m') && InMemory(m, s)
    ensures InMemory(m', s) && Text(m', s) == Text(m, s)
  {
    assert m'[..|m|][s.block] == m'[s.block];
  }

  /** A peek cache of length zero agrees with everything. */
  lemma PeekReset(m: Blocks, m': Blocks, s: Slice, vs: seq<View>, vs': seq<View>, f: nat)
    requires Extends(m, m') && InMemory(m, s) && s.len == 0 && Consumed(vs, vs', f) && (s.cap > 0 ==> Away(vs, s.block))
    ensures InMemory(m', s) && Text(m', s) == [] && (s.cap > 0 ==> Away(vs', s.block))
  {
    ExtendsText(m, m', s);
    if s.cap > 0 { ConsumedAway(vs, vs', f, s.block); }
  }

  /** The readable bytes from node `k` on, for a reader that walks the chain without moving it. */
  lemma WalkOn(m: Blocks, vs: seq<View>, k: nat, f: nat)
    requires AllFit(m, vs) && k < |vs| && k < f
    ensures Readable(m, vs, k, f) == Ready(m, vs[k]) + Readable(m, vs, k + 1, f)
  {
  }

  /** The first node of the chain is dropped; it lies before the read node. */
  lemma DropSound(m: Blocks, vs: seq<View>, r: nat, f: nat, w: nat)
    requires Sound(m, vs, r, f, w) && 0 < r
    ensures Sound(m, vs[1..], r - 1, f - 1, w - 1)
    ensures Readable(m, vs[1..], r - 1, f - 1) == Readable(m, vs, r, f)
    ensures Pending(m, vs[1..], f - 1) == Pending(m, vs, f)
    ensures ReadyLen(vs[1..], r - 1, |vs| - 1) == ReadyLen(vs, r, |vs|)
  {
    hide Fits, Ready, Whole, Open, Blank, FlatWhole;
    var vs' := vs[1..];
    forall k | 0 <= k < |vs'| ensures vs'[k] == vs[k + 1] {}
    assert AllFit(m, vs') && OpenFrom(vs', f - 1) && BlankFrom(vs', w) by {
      forall k | 0 <= k < |vs'| ensures Fits(m, vs'[k]) { assert Fits(m, vs[k + 1]); }
      forall k | f - 1 <= k < |vs'| ensures Open(vs'[k]) { assert Open(vs[k + 1]); }
      forall k | w <= k < |vs'| ensures Blank(vs'[k]) { assert Blank(vs[k + 1]); }
    }
    FlatDrop(m, vs, r, if f < |vs| then f + 1 else |vs|);
    CountDrop(vs, r, |vs|);
    WholeFrame(m, vs, m, vs', f + 1, -1);
  }

  lemma {:induction false} FlatDrop(m: Blocks, vs: seq<View>, i: nat, j: nat)
    requires 0 < |vs| && AllFit(m, vs) && AllFit(m, vs[1..]) && 0 < i && j <= |vs|
    ensures Flat(m, vs[1..], i - 1, if j == 0 then 0 else j - 1) == Flat(m, vs, i, j)
    decreases j - i
  {
    hide Fits, Ready;
    if i < j {
      FlatDrop(m, vs, i + 1, j);
      assert vs[1..][i - 1] == vs[i];
    }
  }

  lemma {:induction false} CountDrop(vs: seq<View>, i: nat, j: nat)
    requires 0 < i <= j <= |vs|
    ensures ReadyLen(vs[1..], i - 1, j - 1) == ReadyLen(vs, i, j)
    decreases j - i
  {
    if i < j { CountDrop(vs, i + 1, j); }
  }

  /** The first `d` nodes were dropped. */
  ghost predicate Behind<T>(s: seq<T>, d: nat, s': seq<T>)
  {
    d <= |s| && s' == s[d..]
  }

  lemma BehindNone<T>(s: seq<T>)
    ensures Behind(s, 0, s)
  {
  }

  lemma BehindOne<T>(s: seq<T>, d: nat, s': seq<T>)
    requires Behind(s, d, s') && 0 < |s'|
    ensures Behind(s, d + 1, s'[1..])
  {
  }

  /** Everything the writer relies on, for two chains and their flush and write positions. */
  ghost predicate SidesKept(vs: seq<View>, f: nat, w: nat, vs': seq<View>, f': nat, w': nat)
  {
    && (SealedTo(vs, f) ==> SealedTo(vs', f')) && (Settled(vs, f) ==> Settled(vs', f')) && (Plain(vs, f) ==> Plain(vs', f'))
    && (Own(vs, f) ==> Own(vs', f')) && (Apart(vs, w) ==> Apart(vs', w'))
  }

  lemma SidesTrans(vs: seq<View>, f: nat, w: nat, vs': seq<View>, f': nat, w': nat, vs'': seq<View>, f'': nat, w'': nat)
    requires SidesKept(vs, f, w, vs', f', w') && SidesKept(vs', f', w', vs'', f'', w'')
    ensures SidesKept(vs, f, w, vs'', f'', w'')
  {
    hide SealedTo, Settled, Plain, Own, Apart;
  }

  lemma ConsumedSides(m: Blocks, vs: seq<View>, vs': seq<View>, f: nat, w: nat)
    requires Consumed(vs, vs', f) && AllFit(m, vs) && AllFit(m, vs') && OpenFrom(vs, f) && f <= w
    ensures SidesKept(vs, f, w, vs', f, w)
  {
    hide SealedTo, Settled, Plain, Own, Apart, Consumed, AllFit, OpenFrom;
    ConsumedKeeps(m, vs, vs', f, w);
  }

  lemma BehindSides(vs: seq<View>, d: nat, vs': seq<View>, f: nat, w: nat)
    requires Behind(vs, d, vs') && d <= f <= w
    ensures SidesKept(vs, f, w, vs', f - d, w - d)
  {
    hide End, SameArray;
    forall k | 0 <= k < |vs'| ensures vs'[k] == vs[k + d] {}
    BehindPlain(vs, d, vs', f);
    BehindApart(vs, d, vs', f, w);
  }

  lemma BehindPlain(vs: seq<View>, d: nat, vs': seq<View>, f: nat)
    requires Behind(vs, d, vs') && d <= f
    ensures SealedTo(vs, f) ==> SealedTo(vs', f - d)
    ensures Settled(vs, f) ==> Settled(vs', f - d)
    ensures Plain(vs, f) ==> Plain(vs', f - d)
  {
    forall k | 0 <= k < |vs'| ensures vs'[k] == vs[k + d] {}
    if SealedTo(vs, f) {
      forall k | 0 <= k < f - d && k < |vs'| ensures vs'[k].malloc == vs'[k].buf.len { assert vs'[k] == vs[k + d]; }
    }
  }

  lemma BehindApart(vs: seq<View>, d: nat, vs': seq<View>, f: nat, w: nat)
    requires Behind(vs, d, vs') && d <= f <= w
    ensures Own(vs, f) ==> Own(vs', f - d)
    ensures Apart(vs, w) ==> Apart(vs', w - d)
  {
    hide End, SameArray;
    if Own(vs, f) {
      forall i, j | f - d <= i < |vs'| && 0 <= j < |vs'| && i != j && SameArray(vs'[i], vs'[j])
        ensures End(vs'[j]) <= vs'[i].buf.lo + vs'[i].buf.len && (f - d <= j ==> vs'[j].readonly)
      {
        assert SameArray(vs[i + d], vs[j + d]);
      }
    }
    if Apart(vs, w) {
      forall i, j | w - d <= i < |vs'| && 0 <= j < |vs'| && i != j && SameArray(vs'[i], vs'[j])
        ensures End(vs'[j]) <= vs'[i].buf.lo + vs'[i].malloc && (w - d <= j ==> vs'[j].readonly)
      {
        assert SameArray(vs[i + d], vs[j + d]);
      }
    }
  }

  /** The view of a node made by Refer: a read-only window. */
  function Window(s: Slice): View
  {
    View(s, 0, 0, true, false)
  }

  lemma WindowFits(m: Blocks, s: Slice)
    requires InMemory(m, s)
    ensures Fits(m, Window(s)) && Ready(m, Window(s)) == Text(m, s)
  {
  }

  lemma FlatMore(m: Blocks, vs: seq<View>, v: View)
    requires AllFit(m, vs) && Fits(m, v)
    ensures AllFit(m, vs + [v]) && Flat(m, vs + [v], 0, |vs| + 1) == Flat(m, vs, 0, |vs|) + Ready(m, v)
  {
    hide Fits, Ready;
    var vs', n := vs + [v], |vs|;
    FlatSplit(m, vs', 0, n, n + 1);
    FlatFrame(m, vs, m, vs', 0, n);
    assert Flat(m, vs', n, n + 1) == Ready(m, v) by { assert Flat(m, vs', n + 1, n + 1) == []; }
  }

  lemma CountMore(vs: seq<View>, v: View)
    ensures ReadyLen(vs + [v], 0, |vs| + 1) == ReadyLen(vs, 0, |vs|) + v.buf.len - v.off
  {
    CountConcat(vs, [v], 0);
  }

  // ---------------------------------------------------------------- linking behind the write node

  /** A node without readable bytes. */
  predicate Unflushed(v: View)
  {
    v.off == 0 && v.buf.len == 0
  }

  lemma LinkSound(m: Blocks, vs: seq<View>, r: nat, f: nat, w: nat, v: View)
    requires Sound(m, vs, r, f, w) && w < |vs| && Fits(m, v) && Unflushed(v)
    ensures var vs' := Continued(vs, w, [v]);
            && |vs'| == w + 2 && Sound(m, vs', r, f, w + 1) && Readable(m, vs', r, f) == Readable(m, vs, r, f)
            && ReadyLen(vs', r, |vs'|) == ReadyLen(vs, r, |vs|)
            && Pending(m, vs', f) == Pending(m, vs, f) + Waiting(m, v)
            && WaitingLen(vs', f) == WaitingLen(vs, f) + v.malloc
  {
    hide Fits, Ready, Whole, Open, Blank, FlatWhole, Waiting;
    var vs' := Continued(vs, w, [v]);
    assert Open(v) by { OpenUnflushed(v); }
    ContinuedPending(m, vs, f, w, [v]);
    ContinuedCounts(m, vs, r, w, [v]);
    ContinuedCounts(m, vs, f, w, [v]);
    WholeOne(m, v);
    assert AllFit(m, vs') && OpenFrom(vs', f);
    FlatFrame(m, vs, m, vs', r, f + 1);
  }

  lemma OpenUnflushed(v: View)
    requires Unflushed(v)
    ensures Open(v)
  {
  }

  lemma WholeOne(m: Blocks, v: View)
    requires Fits(m, v) && Open(v) && Unflushed(v)
    ensures FlatWhole(m, [v], 0) == Waiting(m, v) && WaitingLen([v], 0) == v.malloc && ReadyLen([v], 0, 1) == 0
  {
    assert Whole(m, v) == Waiting(m, v);
    assert FlatWhole(m, [v], 1) == [] && WaitingLen([v], 1) == 0 && ReadyLen([v], 1, 1) == 0;
  }

  lemma LinkPlain(vs: seq<View>, f: nat, w: nat, v: View)
    requires f <= w < |vs| && Unflushed(v)
    ensures var vs' := Continued(vs, w, [v]);
            && (SealedTo(vs, f) ==> SealedTo(vs', f)) && (Settled(vs, f) ==> Settled(vs', f)) && (Plain(vs, f) ==> Plain(vs', f))
  {
  }

  /** A new node is in nobody's way if it brings its own array, or hands out nothing. */
  lemma LinkApart(vs: seq<View>, f: nat, w: nat, v: View)
    requires f <= w < |vs| && Unflushed(v)
    requires v.readonly || forall k :: 0 <= k < |vs| ==> vs[k].buf.block != v.buf.block
    ensures Apart(Continued(vs, w, [v]), w + 1)
    ensures Own(vs, f) && (v.readonly ==> Blank(v) && v.buf.lo == 0) ==> Own(Continued(vs, w, [v]), f)
  {
    var vs' := Continued(vs, w, [v]);
    forall i, j | f <= i < |vs'| && 0 <= j < |vs'| && i != j && SameArray(vs'[i], vs'[j])
      ensures i <= w && (j <= w ==> SameArray(vs[i], vs[j])) && (j == w + 1 ==> v.readonly)
    {
    }
    if Own(vs, f) && (v.readonly ==> Blank(v) && v.buf.lo == 0) {
      forall i, j | f <= i < |vs'| && 0 <= j < |vs'| && i != j && SameArray(vs'[i], vs'[j])
        ensures End(vs'[j]) <= vs'[i].buf.lo + vs'[i].buf.len && (f <= j ==> vs'[j].readonly)
      {
        if j <= w { assert SameArray(vs[i], vs[j]); }
      }
    }
  }

  /** Arrays below `lim` the chain did not use it does not use now. */
  ghost predicate AwayKept(vs: seq<View>, vs': seq<View>, lim: nat)
  {
    forall b: nat :: b < lim && Away(vs, b) ==> Away(vs', b)
  }

  // ---------------------------------------------------------------- handing out

  /** The chain, or the chain with one blank node at its end. */
  ghost predicate GrownChain(vs: seq<View>, vs': seq<View>)
  {
    vs' == vs || (|vs'| == |vs| + 1 && vs'[..|vs|] == vs && Blank(vs'[|vs|]))
  }

  lemma GrownPending(m: Blocks, vs: seq<View>, vs': seq<View>, f: nat)
    requires GrownChain(vs, vs') && AllFit(m, vs') && OpenFrom(vs, f) && f < |vs|
    ensures AllFit(m, vs) && OpenFrom(vs', f) && Pending(m, vs', f) == Pending(m, vs, f)
  {
    hide Fits, Open, Whole, Waiting, FlatWhole, Blank;
    if vs' != vs {
      var v := vs'[|vs|];
      assert vs' == Continued(vs, |vs| - 1, [v]);
      assert AllFit(m, vs) by {
        forall k | 0 <= k < |vs| ensures Fits(m, vs[k]) { assert vs[k] == vs'[k]; }
      }
      BlankRest(m, [v], 0);
      BlankOpen(v);
      ContinuedPending(m, vs, f, |vs| - 1, [v]);
    }
  }

  lemma BlankOpen(v: View)
    requires Blank(v)
    ensures Open(v) && Unflushed(v)
  {
  }

  /** Whatever memory holds, now or later: the pending bytes of `vs'` are those of `vs` and then
      the bytes of `p`. */
  ghost predicate Hands(vs: seq<View>, vs': seq<View>, f: nat, p: Slice)
  {
    && OpenFrom(vs, f) && OpenFrom(vs', f)
    && (forall m: Blocks :: AllFit(m, vs') ==> AllFit(m, vs) && InMemory(m, p) && Pending(m, vs', f) == Pending(m, vs, f) + Text(m, p))
    && (forall m: Blocks, r: nat :: AllFit(m, vs) && AllFit(m, vs') ==> Readable(m, vs', r, f) == Readable(m, vs, r, f))
  }

  lemma MallocHands(vs: seq<View>, vs': seq<View>, f: nat, w: nat, n: nat)
    requires GrownChain(vs, vs') && OpenFrom(vs, f) && OpenFrom(vs', f) && f < |vs| && f <= w < |vs'| && BlankFrom(vs', w + 1)
    requires vs'[w].malloc + n <= vs'[w].buf.cap
    ensures Hands(vs, vs'[w := vs'[w].(malloc := vs'[w].malloc + n)], f, Handed(vs'[w], n))
  {
    var v := vs'[w].(malloc := vs'[w].malloc + n);
    var vs'', p := vs'[w := v], Handed(vs'[w], n);
    forall k | f <= k < |vs''| ensures Open(vs''[k]) { assert Open(vs'[k]); }
    forall m: Blocks | AllFit(m, vs'')
      ensures AllFit(m, vs) && InMemory(m, p) && Pending(m, vs'', f) == Pending(m, vs, f) + Text(m, p)
    {
      forall k | 0 <= k < |vs'| ensures Fits(m, vs'[k]) { assert Fits(m, vs''[k]); }
      hide GrownChain, Handed;
      MallocPending(m, vs', f, w, n);
      GrownPending(m, vs, vs', f);
    }
    forall m: Blocks, r: nat | AllFit(m, vs) && AllFit(m, vs'')
      ensures Readable(m, vs'', r, f) == Readable(m, vs, r, f)
    {
      MallocReadable(m, vs, vs', r, f, w, n);
    }
  }

  lemma MallocReadable(m: Blocks, vs: seq<View>, vs': seq<View>, r: nat, f: nat, w: nat, n: nat)
    requires GrownChain(vs, vs') && f < |vs| && f <= w < |vs'| && AllFit(m, vs)
    requires AllFit(m, vs'[w := vs'[w].(malloc := vs'[w].malloc + n)])
    ensures Readable(m, vs'[w := vs'[w].(malloc := vs'[w].malloc + n)], r, f) == Readable(m, vs, r, f)
  {
    var vs'' := vs'[w := vs'[w].(malloc := vs'[w].malloc + n)];
    forall k | 0 <= k < f + 1 ensures Ready(m, vs''[k]) == Ready(m, vs[k]) { assert vs'[k] == vs[k]; }
    hide GrownChain, Ready, Fits;
    FlatFrame(m, vs, m, vs'', r, f + 1);
  }

  /** Filling memory that overlaps nothing disturbs neither flat sequence. */
  lemma StoreUntouched(m: Blocks, vs: seq<View>, r: nat, f: nat, s: Slice, t: seq<byte>)
    requires AllFit(m, vs) && OpenFrom(vs, f) && f < |vs| && Untouched(vs, s) && InMemory(m, s) && |t| == s.len
    ensures var m' := Stored(m, s, t);
            && AllFit(m', vs) && Readable(m', vs, r, f) == Readable(m, vs, r, f) && Pending(m', vs, f) == Pending(m, vs, f)
  {
    var m' := Stored(m, s, t);
    forall k | 0 <= k < |vs|
      ensures Fits(m', vs[k]) && Ready(m', vs[k]) == Ready(m, vs[k]) && (Open(vs[k]) ==> Waiting(m', vs[k]) == Waiting(m, vs[k]))
    {
      hide Stored, InMemory, Fits, Ready, Waiting, End;
      StoreOutside(m, s, t, vs[k]);
    }
    hide Stored, InMemory, Fits, Ready, Waiting, End, Untouched;
    FlatFrame(m, vs, m', vs, r, f + 1);
    WholeFrame(m, vs, m', vs, f + 1, 0);
  }

  /** Every used byte of the chain that shares the array lies below `p`. */
  ghost predicate Untouched(vs: seq<View>, p: Slice)
  {
    forall k :: 0 <= k < |vs| && vs[k].buf.block == p.block ==> End(vs[k]) <= p.lo
  }

  lemma MallocUntouched(vs: seq<View>, vs': seq<View>, w: nat, n: nat)
    requires GrownChain(vs, vs') && Apart(vs', w) && w < |vs'| && !vs'[w].readonly && Open(vs'[w])
    ensures Untouched(vs, Handed(vs'[w], n))
  {
    HandedApart(vs', w, n);
    hide Apart, Handed, End;
    forall k | 0 <= k < |vs| && vs[k].buf.block == Handed(vs'[w], n).block
      ensures End(vs[k]) <= Handed(vs'[w], n).lo
    {
      assert vs[k] == vs'[k];
    }
  }

  lemma MallocSound(m: Blocks, vs: seq<View>, r: nat, f: nat, w: nat, n: nat)
    requires Sound(m, vs, r, f, w) && w < |vs| && vs[w].malloc + n <= vs[w].buf.cap
    ensures var vs' := vs[w := vs[w].(malloc := vs[w].malloc + n)];
            && Sound(m, vs', r, f, w) && Readable(m, vs', r, f) == Readable(m, vs, r, f)
            && ReadyLen(vs', r, |vs'|) == ReadyLen(vs, r, |vs|) && WaitingLen(vs', f) == WaitingLen(vs, f) + n
            && InMemory(m, Handed(vs[w], n)) && Pending(m, vs', f) == Pending(m, vs, f) + Text(m, Handed(vs[w], n))
  {
    hide Pending, ReadyLen, WaitingLen, Handed, Text, Flat, Whole, FlatWhole;
    var v := vs[w].(malloc := vs[w].malloc + n);
    var vs' := vs[w := v];
    MallocPending(m, vs, f, w, n);
    CountReplaced(vs, r, w, v);
    CountReplaced(vs, f, w, v);
    FlatFrame(m, vs, m, vs', r, f + 1);
  }

  lemma MallocSides(vs: seq<View>, f: nat, w: nat, n: nat)
    requires f <= w < |vs| && !vs[w].readonly && (w == f || f < w)
    ensures SidesKept(vs, f, w, vs[w := vs[w].(malloc := vs[w].malloc + n)], f, w)
  {
    var vs' := vs[w := vs[w].(malloc := vs[w].malloc + n)];
    if Own(vs, f) { OwnMalloc(vs, f, w, n); }
    if Apart(vs, w) { ApartMalloc(vs, w, n); }
    hide Own, Apart, End;
  }

  /** The write pointer moves over blank nodes. */
  lemma AdvanceSound(m: Blocks, vs: seq<View>, r: nat, f: nat, w: nat)
    requires Sound(m, vs, r, f, w) && w + 1 < |vs|
    ensures Sound(m, vs, r, f, w + 1)
    ensures SidesKept(vs, f, w, vs, f, w + 1)
  {
    hide End, SameArray;
  }

  lemma SidesRefl(vs: seq<View>, f: nat, w: nat)
    ensures SidesKept(vs, f, w, vs, f, w)
  {
  }

  lemma LinkSides(vs: seq<View>, f: nat, w: nat, v: View)
    requires f <= w < |vs| && Unflushed(v)
    requires v.readonly || forall k :: 0 <= k < |vs| ==> vs[k].buf.block != v.buf.block
    requires v.readonly ==> Blank(v) && v.buf.lo == 0
    ensures SidesKept(vs, f, w, Continued(vs, w, [v]), f, w + 1) && Apart(Continued(vs, w, [v]), w + 1)
  {
    hide SealedTo, Settled, Plain, Own, Apart, Continued, Unflushed, Blank;
    LinkPlain(vs, f, w, v);
    LinkApart(vs, f, w, v);
  }

  // ---------------------------------------------------------------- memory of others

  /** Only bytes inside `p`, or in new arrays, may have changed. */
  ghost predicate OnlySlice(m: Blocks, m': Blocks, p: Slice)
  {
    && |m| <= |m'| && (forall b :: 0 <= b < |m| ==> |m'[b]| == |m[b]|)
    && forall b, i :: 0 <= b < |m| && 0 <= i < |m[b]| && (b != p.block || i < p.lo || p.lo + p.len <= i) ==> m'[b][i] == m[b][i]
  }

  lemma StoredOnly(m: Blocks, m': Blocks, p: Slice, t: seq<byte>)
    requires Extends(m, m') && InMemory(m', p) && |t| == p.len
    ensures OnlySlice(m, Stored(m', p, t), p)
  {
    forall b | 0 <= b < |m| ensures m'[b] == m[b] { assert m'[..|m|][b] == m'[b]; }
  }

  /** The cache keeps its bytes: its array is not the one stored to. */
  lemma CacheKept(m: Blocks, m': Blocks, p: Slice, s: Slice)
    requires OnlySlice(m, m', p) && InMemory(m, s) && (s.cap > 0 ==> s.block != p.block)
    ensures InMemory(m', s) && Text(m', s) == Text(m, s)
  {
  }

  /** The view of a user's slice that was linked in without copying. */
  function Wrapping(s: Slice): View
  {
    View(Slice(s.block, s.lo, 0, s.cap), 0, s.len, true, false)
  }

  lemma WrappingWaits(m: Blocks, s: Slice)
    requires InMemory(m, s)
    ensures Fits(m, Wrapping(s)) && Wrapped(Wrapping(s)) && Unflushed(Wrapping(s)) && Open(Wrapping(s)) && Waiting(m, Wrapping(s)) == Text(m, s)
  {
  }

  lemma WrapHands(vs: seq<View>, f: nat, w: nat, s: Slice)
    requires OpenFrom(vs, f) && f <= w < |vs| && BlankFrom(vs, w + 1)
    ensures var vs' := Continued(vs, w, [Wrapping(s)]); OpenFrom(vs', f) && HandsAt(vs, vs', f, s)
  {
    var v, vs' := Wrapping(s), Continued(vs, w, [Wrapping(s)]);
    forall k | f <= k < |vs'| ensures Open(vs'[k]) {}
    forall m: Blocks | AllFit(m, vs) && InMemory(m, s)
      ensures AllFit(m, vs') && Pending(m, vs', f) == Pending(m, vs, f) + Text(m, s)
    {
      WrappingWaits(m, s);
      hide Wrapping, Wrapped, Unflushed, Text, Continued;
      WholeOne(m, v);
      ContinuedPending(m, vs, f, w, [v]);
    }
  }

  /** As Hands, for a slice that was linked in: whatever memory holds, now or later. */
  ghost predicate HandsAt(vs: seq<View>, vs': seq<View>, f: nat, p: Slice)
  {
    && OpenFrom(vs, f) && OpenFrom(vs', f)
    && (forall m: Blocks :: AllFit(m, vs) && InMemory(m, p) ==> AllFit(m, vs') && Pending(m, vs', f) == Pending(m, vs, f) + Text(m, p))
  }

  // ---------------------------------------------------------------- flushing

  /** Flush, on the chain: everything pending is readable, and the flush node is the write node. */
  lemma FlushSound(m: Blocks, vs: seq<View>, r: nat, f: nat, w: nat)
    requires Sound(m, vs, r, f, w) && w < |vs|
    ensures var vs' := SealedFrom(vs, f, w + 1);
            && Sound(m, vs', r, w, w) && Readable(m, vs', r, w) == Readable(m, vs, r, f) + Pending(m, vs, f)
            && Pending(m, vs', w) == [] && WaitingLen(vs', w) == 0
            && ReadyLen(vs', r, |vs'|) == ReadyLen(vs, r, |vs|) + WaitingLen(vs, f)
  {
    var vs' := SealedFrom(vs, f, w + 1);
    SealedRest(vs, f, w);
    SealedShape(m, vs, f, w);
    assert r <= w;
    hide Pending, Flat, FlatWhole, ReadyLen, WaitingLen, SealedFrom, Fits, Ready, Whole, Blank, Open;
    FlushFlat(m, vs, r, f);
    FlatSplit(m, vs', r, w + 1, |vs|);
    BlankFlat(m, vs', w + 1);
    FlushedTail(m, vs, vs', f, w);
  }

  lemma SealedShape(m: Blocks, vs: seq<View>, f: nat, w: nat)
    requires AllFit(m, vs) && OpenFrom(vs, f) && f <= w < |vs| && BlankFrom(vs, w + 1)
    ensures var vs' := SealedFrom(vs, f, w + 1);
            |vs'| == |vs| && AllFit(m, vs') && OpenFrom(vs', w) && BlankFrom(vs', w + 1)
  {
  }

  lemma SealedRest(vs: seq<View>, f: nat, w: nat)
    requires w < |vs| && BlankFrom(vs, w + 1)
    ensures SealedFrom(vs, f, w + 1) == SealedFrom(vs, f, |vs|)
  {
  }

  lemma {:induction false} BlankFlat(m: Blocks, vs: seq<View>, i: nat)
    requires AllFit(m, vs) && i <= |vs| && BlankFrom(vs, i)
    ensures Flat(m, vs, i, |vs|) == []
    decreases |vs| - i
  {
    if i < |vs| { BlankFlat(m, vs, i + 1); }
  }

  lemma FlushedTail(m: Blocks, vs: seq<View>, vs': seq<View>, f: nat, w: nat)
    requires AllFit(m, vs) && f <= w < |vs| && vs' == SealedFrom(vs, f, w + 1) && AllFit(m, vs') && OpenFrom(vs', w) && BlankFrom(vs', w + 1)
    ensures Pending(m, vs', w) == [] && WaitingLen(vs', w) == 0
  {
    BlankRest(m, vs', w + 1);
    assert vs'[w] == Sealed(vs[w]);
  }

  lemma FlushSides(vs: seq<View>, f: nat, w: nat)
    requires f <= w < |vs| && OpenFrom(vs, f) && BlankFrom(vs, w + 1)
    ensures var vs' := SealedFrom(vs, f, w + 1);
            && Settled(vs', w) && Plain(vs', w) && (SealedTo(vs, f) ==> SealedTo(vs', w)) && (Apart(vs, w) ==> Own(vs', w))
  {
    if Apart(vs, w) { OwnFlushed(vs, f, w); }
    hide Apart, Own;
  }

  // ---------------------------------------------------------------- acking

  /** How much MallocAck(n) really keeps: zero keeps what the flush node has. */
  function Keeps(vs: seq<View>, f: nat, n: nat): int
    requires f < |vs|
  {
    if n == 0 then vs[f].malloc - vs[f].buf.len else n
  }

  lemma AckSound(m: Blocks, vs: seq<View>, r: nat, f: nat, w: nat, n: nat)
    requires Sound(m, vs, r, f, w) && w < |vs| && Plain(vs, f) && n <= WaitingLen(vs, f)
    ensures var vs', w' := Acked(vs, f, n), AckNode(vs, f, n);
            && Sound(m, vs', r, f, w') && w' < |vs'| && Plain(vs', f) && Settled(vs', f)
            && Readable(m, vs', r, f) == Readable(m, vs, r, f) && ReadyLen(vs', r, |vs'|) == ReadyLen(vs, r, |vs|)
            && n <= |Pending(m, vs, f)| && Pending(m, vs', f) == Pending(m, vs, f)[..n] && WaitingLen(vs', f) == n
  {
    hide Pending, Fits, Ready, Blank, Open, ReadyLen, WaitingLen, Acked;
    var vs' := Acked(vs, f, n);
    AckedShape(m, vs, f, n);
    AckedPending(m, vs, f, n);
    PendingLen(m, vs', f);
    forall k | 0 <= k < f ensures vs'[k] == vs[k] { assert vs'[..f][k] == vs[..f][k]; }
    SameReady(m, vs, vs', r, f);
    assert Readable(m, vs', r, f) == Readable(m, vs, r, f);
    SettledLen(m, vs, r, f);
    SettledLen(m, vs', r, f);
  }

  /** Nodes up to `f` have the same readable bytes. */
  lemma SameReady(m: Blocks, vs: seq<View>, vs': seq<View>, r: nat, f: nat)
    requires AllFit(m, vs) && AllFit(m, vs') && f < |vs| && f < |vs'|
    requires forall k :: 0 <= k < f ==> vs'[k] == vs[k]
    requires vs'[f].off == vs[f].off && vs'[f].buf == vs[f].buf
    ensures Readable(m, vs', r, f) == Readable(m, vs, r, f)
  {
    FlatFrame(m, vs, m, vs', r, f + 1);
  }

  lemma {:induction false} AckSides(vs: seq<View>, f: nat, k: nat, n: nat)
    requires f <= k < |vs| && Own(vs, f) && Plain(vs, f) && n <= WaitingLen(vs, k) && OpenFrom(vs, f)
    ensures Own(Acked(vs, k, n), f) && (SealedTo(vs, f) ==> SealedTo(Acked(vs, k, n), f))
    ensures forall b: nat :: Away(vs, b) ==> Away(Acked(vs, k, n), b)
    decreases |vs| - k
  {
    if n <= vs[k].malloc - vs[k].buf.len || k + 1 == |vs| {
      OwnAcked(vs, Acked(vs, k, n), f);
      hide Own;
    } else {
      hide Own, OpenFrom;
      AckSides(vs, f, k + 1, n - (vs[k].malloc - vs[k].buf.len));
    }
  }

  /** Node `k` is `v` and every node after it up to `e` is blank. */
  function BlankedAt(vs: seq<View>, k: nat, v: View, e: nat): seq<View>
  {
    seq(|vs|, j requires 0 <= j < |vs| => if j == k then v else if k < j < e then Blanked(vs[j]) else vs[j])
  }

  lemma AckedHere(vs: seq<View>, k: nat, n: nat)
    requires k < |vs| && n <= vs[k].malloc - vs[k].buf.len
    ensures AckNode(vs, k, n) == k
    ensures Acked(vs, k, n) == BlankedAt(vs, k, vs[k].(malloc := n + vs[k].buf.len), |vs|)
  {
  }

  lemma AckedOn(vs: seq<View>, k: nat, n: nat)
    requires k < |vs| && OpenFrom(vs, k) && vs[k].malloc - vs[k].buf.len < n <= WaitingLen(vs, k)
    ensures var rest := n - (vs[k].malloc - vs[k].buf.len);
            && k + 1 < |vs| && 0 < rest <= WaitingLen(vs, k + 1)
            && AckNode(vs, k, n) == AckNode(vs, k + 1, rest) && Acked(vs, k, n) == Acked(vs, k + 1, rest)
  {
  }

  lemma BlankStep(vs: seq<View>, k: nat, v: View, e: nat)
    requires k < e < |vs|
    ensures |BlankedAt(vs, k, v, e)| == |vs| && BlankedAt(vs, k, v, e)[e] == vs[e]
    ensures BlankedAt(vs, k, v, e)[e := Blanked(vs[e])] == BlankedAt(vs, k, v, e + 1)
  {
  }

  lemma BlankNone(vs: seq<View>, k: nat)
    requires k < |vs|
    ensures BlankedAt(vs, k, vs[k], k + 1) == vs
  {
  }

  // ---------------------------------------------------------------- splicing

  /** Whatever memory holds: `k` pending bytes of `vs` are kept. */
  ghost predicate Cuts(vs: seq<View>, vs': seq<View>, f: nat, n: nat)
  {
    && OpenFrom(vs, f) && OpenFrom(vs', f)
    && forall m: Blocks :: AllFit(m, vs) ==>
         AllFit(m, vs') && n <= |Pending(m, vs, f)| && Pending(m, vs', f) == Pending(m, vs, f)[..n]
  }

  lemma AckCuts(m: Blocks, vs: seq<View>, f: nat, n: nat)
    requires AllFit(m, vs) && OpenFrom(vs, f) && f < |vs| && Plain(vs, f) && n <= WaitingLen(vs, f)
    ensures Cuts(vs, Acked(vs, f, n), f, n)
  {
    AckedShape(m, vs, f, n);
    forall m: Blocks | AllFit(m, vs)
      ensures AllFit(m, Acked(vs, f, n)) && n <= |Pending(m, vs, f)| && Pending(m, Acked(vs, f, n), f) == Pending(m, vs, f)[..n]
    {
      hide Acked, Pending, AllFit;
      AckedPending(m, vs, f, n);
    }
  }

  /** Whatever memory holds: the bytes of `p` come after the first `at` pending bytes of `vs`. */
  ghost predicate Splices(vs: seq<View>, vs': seq<View>, f: nat, at: nat, p: Slice)
  {
    && OpenFrom(vs, f) && OpenFrom(vs', f)
    && forall m: Blocks :: AllFit(m, vs) && InMemory(m, p) ==>
         AllFit(m, vs') && at <= |Pending(m, vs, f)|
         && Pending(m, vs', f) == Pending(m, vs, f)[..at] + Text(m, p) + Pending(m, vs, f)[at..]
  }

  lemma SpliceAll(m: Blocks, vs: seq<View>, f: nat, at: nat, p: Slice, split: bool)
    requires AllFit(m, vs) && OpenFrom(vs, f) && f < |vs| && Settled(vs, f) && at <= WaitingLen(vs, f)
    requires InMemory(m, p) && (!split ==> at == WaitingLen(vs, f))
    ensures Splices(vs, Spliced(vs, f, at, Wrapping(p), split), f, at, p)
  {
    hide Spliced, Pending, AllFit, Wrapped, Wrapping, Fits, Settled, Text;
    WrappingWaits(m, p);
    SplicedPending(m, vs, f, at, Wrapping(p), split);
    forall m: Blocks | AllFit(m, vs) && InMemory(m, p)
      ensures var vs' := Spliced(vs, f, at, Wrapping(p), split);
              && AllFit(m, vs') && at <= |Pending(m, vs, f)|
              && Pending(m, vs', f) == Pending(m, vs, f)[..at] + Text(m, p) + Pending(m, vs, f)[at..]
    {
      WrappingWaits(m, p);
      SplicedPending(m, vs, f, at, Wrapping(p), split);
    }
  }

  lemma SpliceSound(m: Blocks, vs: seq<View>, r: nat, f: nat, w: nat, at: nat, p: Slice, split: bool)
    requires Sound(m, vs, r, f, w) && w < |vs| && Settled(vs, f) && at <= WaitingLen(vs, f)
    requires InMemory(m, p) && (!split ==> at == WaitingLen(vs, f))
    ensures var vs' := Spliced(vs, f, at, Wrapping(p), split);
            && 0 < |vs'| && Sound(m, vs', r, f, |vs'| - 1) && Settled(vs', f)
            && Readable(m, vs', r, f) == Readable(m, vs, r, f) && ReadyLen(vs', r, |vs'|) == ReadyLen(vs, r, |vs|)
            && at <= |Pending(m, vs, f)| && Pending(m, vs', f) == Pending(m, vs, f)[..at] + Text(m, p) + Pending(m, vs, f)[at..]
            && WaitingLen(vs', f) == WaitingLen(vs, f) + p.len && (SealedTo(vs, f) ==> SealedTo(vs', f))
  {
    hide Pending, Fits, Ready, Blank, Open, ReadyLen, WaitingLen, Spliced, Wrapping, Wrapped, Text;
    var vs' := Spliced(vs, f, at, Wrapping(p), split);
    WrappingWaits(m, p);
    SplicedPending(m, vs, f, at, Wrapping(p), split);
    PendingLen(m, vs, f);
    PendingLen(m, vs', f);
    forall k | 0 <= k < f ensures vs'[k] == vs[k] { assert vs'[..f][k] == vs[..f][k]; }
    SameReady(m, vs, vs', r, f);
    SettledLen(m, vs, r, f);
    SettledLen(m, vs', r, f);
  }

  // ---------------------------------------------------------------- appending a chain

  lemma {:induction false} WholeIsBoth(m: Blocks, vs: seq<View>, i: nat, f: nat)
    requires AllFit(m, vs) && i <= f < |vs| && OpenFrom(vs, i) && SealedTo(vs, f)
    ensures FlatWhole(m, vs, i) == Flat(m, vs, i, f + 1) + Pending(m, vs, f)
    decreases f - i
  {
    hide Fits, Ready, Waiting, Open, Flat, FlatWhole, Pending, Whole;
    WholeHead(m, vs, i);
    if i < f {
      WholeIsBoth(m, vs, i + 1, f);
      SealedWhole(m, vs[i]);
      FlatHead(m, vs, i, f + 1);
      Assoc(Ready(m, vs[i]), Flat(m, vs, i + 1, f + 1), Pending(m, vs, f));
    } else {
      FlatOne(m, vs, f);
      WholeParts(m, vs[f]);
      Assoc(Ready(m, vs[f]), Waiting(m, vs[f]), FlatWhole(m, vs, f + 1));
    }
  }

  lemma WholeParts(m: Blocks, v: View)
    requires Fits(m, v) && Open(v)
    ensures Whole(m, v) == Ready(m, v) + Waiting(m, v)
  {
  }

  lemma SealedWhole(m: Blocks, v: View)
    requires Fits(m, v) && Open(v) && v.malloc == v.buf.len
    ensures Whole(m, v) == Ready(m, v)
  {
  }

  /** The nodes of a chain from its read node to its write node. */
  function Core(vs: seq<View>, r: nat, w: nat): seq<View>
    requires r <= w < |vs|
  {
    vs[r..w + 1]
  }

  lemma CoreShape(m: Blocks, vs: seq<View>, r: nat, f: nat, w: nat)
    requires Sound(m, vs, r, f, w) && w < |vs| && SealedTo(vs, f)
    ensures var us := Core(vs, r, w); AllFit(m, us) && OpenFrom(us, 0) && OpenFrom(vs, r)
    ensures BlankFrom(vs[w + 1..], 0) && AllFit(m, vs[w + 1..])
  {
    var us, back := Core(vs, r, w), vs[w + 1..];
    forall k | 0 <= k < |us| ensures us[k] == vs[k + r] {}
    forall k | 0 <= k < |back| ensures back[k] == vs[k + w + 1] {}
  }

  lemma CoreWhole(m: Blocks, vs: seq<View>, r: nat, f: nat, w: nat)
    requires Sound(m, vs, r, f, w) && w < |vs| && SealedTo(vs, f)
    ensures var us := Core(vs, r, w);
            && AllFit(m, us) && OpenFrom(us, 0) && FlatWhole(m, us, 0) == Readable(m, vs, r, f) + Pending(m, vs, f)
  {
    hide Fits, Whole, Open, Blank, Pending, Flat, FlatWhole;
    CoreShape(m, vs, r, f, w);
    var us, front, back := Core(vs, r, w), vs[..w + 1], vs[w + 1..];
    WholeIsBoth(m, vs, r, f);
    assert vs == front + back;
    BlankRest(m, back, 0);
    WholeConcat(m, front, back, r);
    forall k | r <= k < |front| ensures front[k] == us[k - r] {}
    WholeFrame(m, front, m, us, r, 0 - r);
  }

  lemma {:induction false} SealedCount(vs: seq<View>, i: nat, f: nat)
    requires i <= f < |vs| && SealedTo(vs, f)
    ensures WaitingLen(vs, i) == WaitingLen(vs, f)
    decreases f - i
  {
    if i < f { SealedCount(vs, i + 1, f); }
  }

  lemma {:induction false} CountPart(vs: seq<View>, r: nat, us: seq<View>, i: nat)
    requires r <= |vs| && |us| <= |vs| - r && i <= |us|
    requires forall k :: 0 <= k < |us| ==> us[k] == vs[k + r]
    ensures ReadyLen(us, i, |us|) == ReadyLen(vs, i + r, r + |us|)
    ensures WaitingLen(us, i) == WaitingLen(vs, i + r) - WaitingLen(vs, r + |us|)
    decreases |us| - i
  {
    if i < |us| { CountPart(vs, r, us, i + 1); }
  }

  lemma CoreCounts(m: Blocks, vs: seq<View>, r: nat, f: nat, w: nat)
    requires Sound(m, vs, r, f, w) && w < |vs| && SealedTo(vs, f)
    ensures var us := Core(vs, r, w);
            ReadyLen(us, 0, |us|) == ReadyLen(vs, r, |vs|) && WaitingLen(us, 0) == WaitingLen(vs, f)
  {
    hide Fits, Open, Blank, ReadyLen, WaitingLen;
    SealedCount(vs, r, f);
    BlankRest(m, vs, w + 1);
    ReadyLenSplit(vs, r, w + 1, |vs|);
    CountPart(vs, r, Core(vs, r, w), 0);
  }

  lemma AppendSound(m: Blocks, vs: seq<View>, r: nat, f: nat, w: nat, ws: seq<View>, r2: nat, f2: nat, w2: nat)
    requires Sound(m, vs, r, f, w) && w < |vs| && Sound(m, ws, r2, f2, w2) && w2 < |ws| && SealedTo(ws, f2)
    ensures var us := Core(ws, r2, w2);
            var vs' := Continued(vs, w, us);
            && |vs'| == w + 1 + |us| && Sound(m, vs', r, f, |vs'| - 1) && Readable(m, vs', r, f) == Readable(m, vs, r, f)
            && Pending(m, vs', f) == Pending(m, vs, f) + (Readable(m, ws, r2, f2) + Pending(m, ws, f2))
            && ReadyLen(vs', r, |vs'|) == ReadyLen(vs, r, |vs|) + ReadyLen(ws, r2, |ws|)
            && WaitingLen(vs', f) == WaitingLen(vs, f) + WaitingLen(ws, f2)
            && (SealedTo(vs, f) ==> SealedTo(vs', f))
  {
    hide Fits, Ready, Whole, Open, Blank, Pending, Core, ReadyLen, WaitingLen, FlatWhole;
    var us := Core(ws, r2, w2);
    var vs' := Continued(vs, w, us);
    CoreWhole(m, ws, r2, f2, w2);
    CoreCounts(m, ws, r2, f2, w2);
    ContinuedPending(m, vs, f, w, us);
    ContinuedCounts(m, vs, r, w, us);
    ContinuedCounts(m, vs, f, w, us);
    FlatFrame(m, vs, m, vs', r, f + 1);
  }

  /** The slices two chains share, if any, are read-only in the second. */
  ghost predicate Foreign(vs: seq<View>, ws: seq<View>)
  {
    forall i, j :: 0 <= i < |vs| && 0 <= j < |ws| ==> !SameArray(ws[j], vs[i])
  }

  lemma AppendApart(vs: seq<View>, w: nat, ws: seq<View>, r2: nat, w2: nat)
    requires w < |vs| && r2 <= w2 < |ws| && Foreign(vs, ws) && Apart(ws, w2)
    ensures var vs' := Continued(vs, w, Core(ws, r2, w2)); Apart(vs', |vs'| - 1)
  {
    var us := Core(ws, r2, w2);
    forall j | 0 <= j < |us| ensures us[j] == ws[j + r2] {}
    var z := |us| - 1;
    hide End, SameArray;
    forall j | 0 <= j < |us| && z != j && SameArray(us[z], us[j])
      ensures End(us[j]) <= us[z].buf.lo + us[z].malloc
    {
      assert SameArray(ws[w2], ws[j + r2]);
    }
    ApartContinued(vs, w, us, z);
  }

  lemma AppendAway(vs: seq<View>, w: nat, ws: seq<View>, r2: nat, w2: nat, b: nat)
    requires w < |vs| && r2 <= w2 < |ws| && Away(vs, b) && Away(ws, b)
    ensures Away(Continued(vs, w, Core(ws, r2, w2)), b)
  {
  }
}
