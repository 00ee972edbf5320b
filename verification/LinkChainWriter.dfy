/** What the writer operations do to the two flat sequences of a chain. */
module LinkChainWriter {
  import opened LinkChain

  ghost predicate BlankFrom(vs: seq<View>, i: nat)
  {
    forall k :: i <= k < |vs| ==> Blank(vs[k])
  }

  /** Nothing is left to flush before the flush node. */
  ghost predicate SealedTo(vs: seq<View>, f: nat)
  {
    forall k :: 0 <= k < f && k < |vs| ==> vs[k].malloc == vs[k].buf.len
  }

  // ---------------------------------------------------------------- tails

  lemma {:induction false} BlankRest(m: Blocks, vs: seq<View>, i: nat)
    requires AllFit(m, vs) && i <= |vs| && BlankFrom(vs, i)
    ensures FlatWhole(m, vs, i) == [] && WaitingLen(vs, i) == 0 && ReadyLen(vs, i, |vs|) == 0
    decreases |vs| - i
  {
    if i < |vs| { BlankRest(m, vs, i + 1); }
  }

  lemma {:induction false} WholeConcat(m: Blocks, vs: seq<View>, ws: seq<View>, i: nat)
    requires AllFit(m, vs) && AllFit(m, ws) && i <= |vs| && OpenFrom(vs, i) && OpenFrom(ws, 0)
    ensures AllFit(m, vs + ws) && OpenFrom(vs + ws, i)
    ensures FlatWhole(m, vs + ws, i) == FlatWhole(m, vs, i) + FlatWhole(m, ws, 0)
    decreases |vs| - i
  {
    hide Whole, Fits, Open;
    if i < |vs| {
      WholeConcat(m, vs, ws, i + 1);
      assert (vs + ws)[i] == vs[i];
      assert FlatWhole(m, vs + ws, i) == Whole(m, vs[i]) + (FlatWhole(m, vs, i + 1) + FlatWhole(m, ws, 0));
    } else {
      WholeFrame(m, ws, m, vs + ws, 0, |vs|);
    }
  }

  lemma {:induction false} CountConcat(vs: seq<View>, ws: seq<View>, i: nat)
    requires i <= |vs|
    ensures WaitingLen(vs + ws, i) == WaitingLen(vs, i) + WaitingLen(ws, 0)
    ensures ReadyLen(vs + ws, i, |vs + ws|) == ReadyLen(vs, i, |vs|) + ReadyLen(ws, 0, |ws|)
    decreases |vs| - i
  {
    if i < |vs| {
      CountConcat(vs, ws, i + 1);
    } else {
      CountShift(ws, vs + ws, 0, |vs|);
    }
  }

  lemma {:induction false} CountShift(vs: seq<View>, vs': seq<View>, i: nat, d: int)
    requires 0 <= i + d && |vs'| == |vs| + d && i <= |vs|
    requires forall k :: i <= k < |vs| ==> vs[k] == vs'[k + d]
    ensures WaitingLen(vs, i) == WaitingLen(vs', i + d)
    ensures ReadyLen(vs, i, |vs|) == ReadyLen(vs', i + d, |vs'|)
    decreases |vs| - i
  {
    if i < |vs| { CountShift(vs, vs', i + 1, d); }
  }

  /** A chain cut behind its write node and continued with `ws`. */
  function Continued(vs: seq<View>, w: nat, ws: seq<View>): seq<View>
    requires w < |vs|
  {
    vs[..w + 1] + ws
  }

  /** What is linked behind the write node is flushed last. */
  lemma ContinuedPending(m: Blocks, vs: seq<View>, f: nat, w: nat, ws: seq<View>)
    requires AllFit(m, vs) && AllFit(m, ws) && OpenFrom(vs, f) && OpenFrom(ws, 0)
    requires f <= w < |vs| && BlankFrom(vs, w + 1)
    ensures var vs' := Continued(vs, w, ws);
            && AllFit(m, vs') && OpenFrom(vs', f)
            && Pending(m, vs', f) == Pending(m, vs, f) + FlatWhole(m, ws, 0)
  {
    hide Fits, Open, Whole, FlatWhole, Waiting;
    var front := vs[..w + 1];
    assert vs == front + vs[w + 1..];
    BlankRest(m, vs[w + 1..], 0);
    WholeConcat(m, front, vs[w + 1..], f + 1);
    WholeConcat(m, front, ws, f + 1);
    assert Waiting(m, front[f]) == Waiting(m, vs[f]);
  }

  lemma ContinuedCounts(m: Blocks, vs: seq<View>, i: nat, w: nat, ws: seq<View>)
    requires AllFit(m, vs) && i <= w < |vs| && BlankFrom(vs, w + 1)
    ensures var vs' := Continued(vs, w, ws);
            && WaitingLen(vs', i) == WaitingLen(vs, i) + WaitingLen(ws, 0)
            && ReadyLen(vs', i, |vs'|) == ReadyLen(vs, i, |vs|) + ReadyLen(ws, 0, |ws|)
  {
    var front := vs[..w + 1];
    assert vs == front + vs[w + 1..];
    BlankRest(m, vs[w + 1..], 0);
    CountConcat(front, vs[w + 1..], i);
    CountConcat(front, ws, i);
  }

  // ---------------------------------------------------------------- one node changes

  /** Node `k` changes, and with it its bytes; everything else stays where it is. */
  lemma WholeReplaced(m: Blocks, vs: seq<View>, i: nat, k: nat, v: View)
    requires AllFit(m, vs) && OpenFrom(vs, i) && i <= k < |vs| && Fits(m, v) && Open(v)
    ensures var vs' := vs[k := v];
            && AllFit(m, vs') && OpenFrom(vs', i) && OpenFrom(vs, k + 1)
            && FlatWhole(m, vs, i) == FlatWhole(m, vs[..k], i) + Whole(m, vs[k]) + FlatWhole(m, vs, k + 1)
            && FlatWhole(m, vs', i) == FlatWhole(m, vs[..k], i) + Whole(m, v) + FlatWhole(m, vs, k + 1)
  {
    hide Fits, Open, Whole, FlatWhole;
    WholeAround(m, vs, i, k);
    WholeAround(m, vs[k := v], i, k);
    assert vs[k := v][..k] == vs[..k];
    WholeFrame(m, vs, m, vs[k := v], k + 1, 0);
  }

  lemma {:induction false} WholeAround(m: Blocks, vs: seq<View>, i: nat, k: nat)
    requires AllFit(m, vs) && OpenFrom(vs, i) && i <= k < |vs|
    ensures FlatWhole(m, vs, i) == FlatWhole(m, vs[..k], i) + Whole(m, vs[k]) + FlatWhole(m, vs, k + 1)
    decreases k - i
  {
    hide Fits, Open, Whole;
    if i < k {
      WholeAround(m, vs, i + 1, k);
      assert FlatWhole(m, vs, i) == Whole(m, vs[i]) + (FlatWhole(m, vs[..k], i + 1) + Whole(m, vs[k]) + FlatWhole(m, vs, k + 1));
    }
  }

  // ---------------------------------------------------------------- Malloc

  /** The memory the write node hands out next. */
  function Handed(v: View, n: nat): Slice
  {
    Slice(v.buf.block, v.buf.lo + v.malloc, n, n)
  }

  /** What Malloc hands out becomes the end of the pending bytes. */
  lemma MallocPending(m: Blocks, vs: seq<View>, f: nat, w: nat, n: nat)
    requires AllFit(m, vs) && OpenFrom(vs, f) && f <= w < |vs| && BlankFrom(vs, w + 1)
    requires vs[w].malloc + n <= vs[w].buf.cap
    ensures var vs' := vs[w := vs[w].(malloc := vs[w].malloc + n)];
            && AllFit(m, vs') && OpenFrom(vs', f) && InMemory(m, Handed(vs[w], n))
            && Pending(m, vs', f) == Pending(m, vs, f) + Text(m, Handed(vs[w], n))
  {
    hide Fits, Open, Ready, Waiting, Whole, FlatWhole, Text, Handed, InMemory, Blank;
    var v := vs[w].(malloc := vs[w].malloc + n);
    MallocNode(m, vs[w], n);
    BlankRest(m, vs, w + 1);
    if f < w {
      WholeReplaced(m, vs, f + 1, w, v);
      var front, more := FlatWhole(m, vs[..w], f + 1), Text(m, Handed(vs[w], n));
      assert FlatWhole(m, vs, f + 1) == front + Whole(m, vs[w]);
      assert FlatWhole(m, vs[w := v], f + 1) == FlatWhole(m, vs, f + 1) + more;
      assert Waiting(m, vs[f]) + (FlatWhole(m, vs, f + 1) + more) == Waiting(m, vs[f]) + FlatWhole(m, vs, f + 1) + more;
    } else {
      BlankRest(m, vs[w := v], w + 1);
    }
  }

  lemma MallocNode(m: Blocks, v: View, n: nat)
    requires Fits(m, v) && Open(v) && v.malloc + n <= v.buf.cap
    ensures var v' := v.(malloc := v.malloc + n);
            && Fits(m, v') && Open(v') && InMemory(m, Handed(v, n))
            && Waiting(m, v') == Waiting(m, v) + Text(m, Handed(v, n))
            && Whole(m, v') == Whole(m, v) + Text(m, Handed(v, n))
  {
  }

  lemma {:induction false} CountReplaced(vs: seq<View>, i: nat, k: nat, v: View)
    requires i <= k < |vs|
    ensures var vs' := vs[k := v];
            && WaitingLen(vs', i) == WaitingLen(vs, i) + (v.malloc - v.buf.len) - (vs[k].malloc - vs[k].buf.len)
            && ReadyLen(vs', i, |vs'|) == ReadyLen(vs, i, |vs|) + (v.buf.len - v.off) - (vs[k].buf.len - vs[k].off)
    decreases k - i
  {
    if i < k { CountReplaced(vs, i + 1, k, v); } else { CountShift(vs, vs[k := v], k + 1, 0); }
  }

  // ---------------------------------------------------------------- Flush

  function Sealed(v: View): View
  {
    v.(buf := v.buf.(len := v.malloc))
  }

  /** Every node from `f` up to `w` (exclusive) has its malloced bytes made readable. */
  function SealedFrom(vs: seq<View>, f: nat, w: nat): seq<View>
  {
    seq(|vs|, k requires 0 <= k < |vs| => if f <= k < w then Sealed(vs[k]) else vs[k])
  }

  lemma {:induction false} SealedFlat(m: Blocks, vs: seq<View>, vs': seq<View>, i: nat)
    requires AllFit(m, vs) && AllFit(m, vs') && OpenFrom(vs, i) && |vs'| == |vs|
    requires forall k :: i <= k < |vs| ==> vs'[k] == Sealed(vs[k])
    ensures Flat(m, vs', i, |vs|) == FlatWhole(m, vs, i)
    ensures ReadyLen(vs', i, |vs|) == ReadyLen(vs, i, |vs|) + WaitingLen(vs, i) && WaitingLen(vs', i) == 0
    decreases |vs| - i
  {
    hide Ready, Whole, Fits, Open, Sealed;
    if i < |vs| {
      SealedFlat(m, vs, vs', i + 1);
      SealedNode(m, vs[i]);
    }
  }

  lemma SealedNode(m: Blocks, v: View)
    requires Fits(m, v) && Open(v)
    ensures Fits(m, Sealed(v)) && Ready(m, Sealed(v)) == Whole(m, v)
    ensures Sealed(v).buf.len - Sealed(v).off == v.malloc - v.off && Sealed(v).malloc == Sealed(v).buf.len
  {
  }

  /** Flush: the readable bytes become readable ++ pending, and nothing is pending any more. */
  lemma FlushFlat(m: Blocks, vs: seq<View>, r: nat, f: nat)
    requires AllFit(m, vs) && OpenFrom(vs, f) && r <= f < |vs|
    ensures var vs' := SealedFrom(vs, f, |vs|);
            && AllFit(m, vs') && Flat(m, vs', r, |vs|) == Readable(m, vs, r, f) + Pending(m, vs, f)
            && ReadyLen(vs', r, |vs|) == ReadyLen(vs, r, |vs|) + WaitingLen(vs, f)
  {
    hide Fits, Sealed, Ready, Waiting, Open;
    var vs' := SealedFrom(vs, f, |vs|);
    forall k | 0 <= k < |vs|
      ensures Fits(m, vs'[k])
    {
      if f <= k { SealedNode(m, vs[k]); }
    }
    SealedFlat(m, vs, vs', f);
    FlatFrame(m, vs, m, vs', r, f);
    ReadyLenFrame(vs, vs', r, f);
    hide Flat, FlatWhole, Pending, ReadyLen, WaitingLen, SealedFrom, Whole;
    FlatSplit(m, vs', r, f, |vs|);
    FlatSplit(m, vs, r, f, f + 1);
    ReadyLenSplit(vs', r, f, |vs|);
    ReadyLenSplit(vs, r, f, |vs|);
    FlushJoin(m, vs, r, f);
  }

  lemma FlushJoin(m: Blocks, vs: seq<View>, r: nat, f: nat)
    requires AllFit(m, vs) && OpenFrom(vs, f) && r <= f < |vs|
    ensures Flat(m, vs, r, f) + FlatWhole(m, vs, f) == (Flat(m, vs, r, f) + Flat(m, vs, f, f + 1)) + Pending(m, vs, f)
  {
    var front, ready, wait, rest := Flat(m, vs, r, f), Ready(m, vs[f]), Waiting(m, vs[f]), FlatWhole(m, vs, f + 1);
    FlatOne(m, vs, f);
    WholeHead(m, vs, f);
    hide Flat, FlatWhole, Pending, Ready, Waiting;
    Assoc(ready, wait, rest);
    Assoc(front, ready, wait + rest);
  }

  // ---------------------------------------------------------------- MallocAck

  function Blanked(v: View): View
  {
    v.(off := 0, malloc := 0, buf := v.buf.(len := 0))
  }

  /** Nothing but own, unsplit nodes behind the flush node. */
  ghost predicate Plain(vs: seq<View>, f: nat)
  {
    forall k :: f < k < |vs| ==> vs[k].off == 0 && vs[k].buf.len == 0
  }

  /** Keep `n` malloced bytes, counted from node `k`, and blank every node after the last kept one. */
  function Acked(vs: seq<View>, k: nat, n: nat): seq<View>
    requires k < |vs|
    decreases |vs| - k
  {
    if n <= vs[k].malloc - vs[k].buf.len || k + 1 == |vs| then
      seq(|vs|, j requires 0 <= j < |vs| =>
        if j < k then vs[j] else if j == k then vs[k].(malloc := n + vs[k].buf.len) else Blanked(vs[j]))
    else
      Acked(vs, k + 1, n - (vs[k].malloc - vs[k].buf.len))
  }

  /** Where Acked stops. */
  function AckNode(vs: seq<View>, k: nat, n: nat): (j: nat)
    requires k < |vs|
    ensures k <= j < |vs|
    decreases |vs| - k
  {
    if n <= vs[k].malloc - vs[k].buf.len || k + 1 == |vs| then k
    else AckNode(vs, k + 1, n - (vs[k].malloc - vs[k].buf.len))
  }

  lemma PendingIsWhole(m: Blocks, vs: seq<View>, i: nat)
    requires AllFit(m, vs) && OpenFrom(vs, i) && i < |vs| && vs[i].off == vs[i].buf.len
    ensures FlatWhole(m, vs, i) == Pending(m, vs, i)
  {
    assert Ready(m, vs[i]) == [];
  }

  lemma {:induction false} PendingLen(m: Blocks, vs: seq<View>, k: nat)
    requires AllFit(m, vs) && OpenFrom(vs, k) && k < |vs| && Settled(vs, k)
    ensures |Pending(m, vs, k)| == WaitingLen(vs, k)
    decreases |vs| - k
  {
    if k + 1 < |vs| {
      PendingLen(m, vs, k + 1);
      PendingIsWhole(m, vs, k + 1);
    }
  }

  lemma AckedNode(m: Blocks, v: View, n: nat)
    requires Fits(m, v) && Open(v) && n <= v.malloc - v.buf.len
    ensures var v' := v.(malloc := n + v.buf.len);
            Fits(m, v') && Open(v') && Waiting(m, v') == Waiting(m, v)[..n]
    ensures Fits(m, Blanked(v)) && Blank(Blanked(v))
  {
  }

  /** The shape of an acked chain. */
  lemma {:induction false} AckedShape(m: Blocks, vs: seq<View>, k: nat, n: nat)
    requires AllFit(m, vs) && OpenFrom(vs, k) && k < |vs| && Plain(vs, k) && n <= WaitingLen(vs, k)
    ensures var vs', j := Acked(vs, k, n), AckNode(vs, k, n);
            && |vs'| == |vs| && AllFit(m, vs') && OpenFrom(vs', k) && Plain(vs', k) && BlankFrom(vs', j + 1)
            && vs'[..k] == vs[..k] && vs'[k].off == vs[k].off && vs'[k].buf == vs[k].buf
            && (k < j ==> vs'[k] == vs[k])
    decreases |vs| - k
  {
    if n <= vs[k].malloc - vs[k].buf.len || k + 1 == |vs| {
      forall i | k <= i < |vs| ensures Fits(m, Blanked(vs[i])) && Blank(Blanked(vs[i])) { AckedNode(m, vs[i], 0); }
      AckedNode(m, vs[k], n);
    } else {
      hide Fits, Open, Blank;
      AckedShape(m, vs, k + 1, n - (vs[k].malloc - vs[k].buf.len));
      var vs' := Acked(vs, k + 1, n - (vs[k].malloc - vs[k].buf.len));
      assert vs'[..k] == vs'[..k + 1][..k] && vs'[k] == vs'[..k + 1][k];
    }
  }

  /** MallocAck: the first `n` pending bytes stay pending, the rest is discarded. */
  lemma {:induction false} AckedPending(m: Blocks, vs: seq<View>, k: nat, n: nat)
    requires AllFit(m, vs) && OpenFrom(vs, k) && k < |vs| && Plain(vs, k) && n <= WaitingLen(vs, k)
    ensures var vs' := Acked(vs, k, n);
            && AllFit(m, vs') && OpenFrom(vs', k) && n <= |Pending(m, vs, k)|
            && Pending(m, vs', k) == Pending(m, vs, k)[..n]
    decreases |vs| - k
  {
    hide Fits, Open, Blank, Ready, Waiting, Whole, FlatWhole, Pending;
    AckedShape(m, vs, k, n);
    PendingLen(m, vs, k);
    var vs' := Acked(vs, k, n);
    WholeHead(m, vs, k);
    WholeHead(m, vs', k);
    var wait, rest := Waiting(m, vs[k]), FlatWhole(m, vs, k + 1);
    if n <= |wait| || k + 1 == |vs| {
      AckedNode(m, vs[k], n);
      BlankRest(m, vs', k + 1);
      assert (wait + rest)[..n] == wait[..n] && Waiting(m, vs'[k]) + [] == wait[..n];
    } else {
      AckedPending(m, vs, k + 1, n - |wait|);
      AckedShape(m, vs, k + 1, n - |wait|);
      PendingIsWhole(m, vs, k + 1);
      PendingIsWhole(m, vs', k + 1);
      assert (wait + rest)[..n] == wait + rest[..n - |wait|];
    }
  }

  // ---------------------------------------------------------------- WriteDirect

  /** The nodes that replace `v` when `x` is spliced in `at` bytes after its readable part. */
  function Insert(v: View, at: nat, x: View, split: bool): seq<View>
  {
    if split then
      [v.(malloc := v.buf.len + at, readonly := true), x,
       View(v.buf.(len := v.buf.len + at), v.buf.len + at, v.malloc, false, false)]
    else
      [v, x]
  }

  function Spliced(vs: seq<View>, k: nat, at: nat, x: View, split: bool): seq<View>
    requires k < |vs|
    decreases |vs| - k
  {
    if at <= vs[k].malloc - vs[k].buf.len || k + 1 == |vs| then vs[..k] + Insert(vs[k], at, x, split) + vs[k + 1..]
    else Spliced(vs, k + 1, at - (vs[k].malloc - vs[k].buf.len), x, split)
  }

  /** A wrapped user buffer: read-only, all of it malloced, none of it readable yet. */
  predicate Wrapped(x: View)
  {
    x.off == 0 && x.buf.len == 0 && x.readonly
  }

  lemma InsertWhole(m: Blocks, v: View, at: nat, x: View, split: bool)
    requires Fits(m, v) && Open(v) && Fits(m, x) && Wrapped(x) && at <= v.malloc - v.buf.len
    requires !split ==> at == v.malloc - v.buf.len
    ensures var ins := Insert(v, at, x, split);
            && 2 <= |ins| && AllFit(m, ins) && OpenFrom(ins, 0) && Settled(ins, 0)
            && ins[0].buf == v.buf && ins[0].off == v.off
            && Pending(m, ins, 0) == Waiting(m, v)[..at] + Waiting(m, x) + Waiting(m, v)[at..]
  {
    hide Fits, Open, Ready, Waiting, Whole, Pending, Wrapped;
    InsertShape(v, at, x, split);
    SplitNode(m, v, at);
    WrappedWhole(m, x);
    var head, tail, mid := Waiting(m, v)[..at], Waiting(m, v)[at..], Waiting(m, x);
    if split {
      var a, b := v.(malloc := v.buf.len + at, readonly := true), View(v.buf.(len := v.buf.len + at), v.buf.len + at, v.malloc, false, false);
      assert Insert(v, at, x, split) == [a, x, b];
      hide Insert;
      ThreePending(m, a, x, b);
      Assoc(head, mid, tail);
    } else {
      assert Insert(v, at, x, split) == [v, x];
      hide Insert;
      TwoPending(m, v, x);
      assert head == Waiting(m, v) && tail == [] && head + mid + tail == head + mid;
    }
  }

  lemma InsertShape(v: View, at: nat, x: View, split: bool)
    requires Wrapped(x)
    ensures var ins := Insert(v, at, x, split);
            2 <= |ins| && Settled(ins, 0) && ins[0].buf == v.buf && ins[0].off == v.off
  {
  }

  lemma TwoPending(m: Blocks, a: View, b: View)
    requires Fits(m, a) && Open(a) && Fits(m, b) && Open(b)
    ensures AllFit(m, [a, b]) && OpenFrom([a, b], 0) && Pending(m, [a, b], 0) == Waiting(m, a) + Whole(m, b)
  {
    hide Fits, Open, Waiting, Whole;
    assert FlatWhole(m, [a, b], 2) == [];
    WholeHead(m, [a, b], 1);
    WholeHead(m, [a, b], 0);
  }

  lemma ThreePending(m: Blocks, a: View, b: View, c: View)
    requires Fits(m, a) && Open(a) && Fits(m, b) && Open(b) && Fits(m, c) && Open(c)
    ensures AllFit(m, [a, b, c]) && OpenFrom([a, b, c], 0) && Pending(m, [a, b, c], 0) == Waiting(m, a) + (Whole(m, b) + Whole(m, c))
  {
    hide Fits, Open, Waiting, Whole;
    assert FlatWhole(m, [a, b, c], 3) == [];
    WholeHead(m, [a, b, c], 2);
    WholeHead(m, [a, b, c], 1);
    WholeHead(m, [a, b, c], 0);
  }

  /** The two pieces of a split node. */
  lemma SplitNode(m: Blocks, v: View, at: nat)
    requires Fits(m, v) && Open(v) && at <= v.malloc - v.buf.len
    ensures var a, b := v.(malloc := v.buf.len + at, readonly := true), View(v.buf.(len := v.buf.len + at), v.buf.len + at, v.malloc, false, false);
            && Fits(m, a) && Open(a) && Waiting(m, a) == Waiting(m, v)[..at]
            && Fits(m, b) && Open(b) && Whole(m, b) == Waiting(m, v)[at..]
  {
    var b := View(v.buf.(len := v.buf.len + at), v.buf.len + at, v.malloc, false, false);
    var s, x, y := m[v.buf.block], v.buf.lo + v.buf.len, v.buf.lo + v.malloc;
    CutCut(s, x, y, 0, at);
    CutCut(s, x, y, at, y - x);
    assert Ready(m, b) == [];
  }

  lemma WrappedWhole(m: Blocks, x: View)
    requires Fits(m, x) && Wrapped(x)
    ensures Open(x) && Whole(m, x) == Waiting(m, x)
  {
    assert Ready(m, x) == [];
  }

  /** Replacing node `k` by a run of nodes replaces its pending bytes by theirs. */
  lemma PendingAround(m: Blocks, vs: seq<View>, k: nat, ins: seq<View>)
    requires AllFit(m, vs) && OpenFrom(vs, k) && k < |vs| && AllFit(m, ins) && OpenFrom(ins, 0) && 0 < |ins|
    ensures var vs' := vs[..k] + ins + vs[k + 1..];
            && AllFit(m, vs') && OpenFrom(vs', k)
            && Pending(m, vs', k) == Pending(m, ins, 0) + FlatWhole(m, vs, k + 1)
  {
    hide Fits, Open, Waiting, Whole, FlatWhole;
    var front, back := vs[..k] + ins, vs[k + 1..];
    WholeConcat(m, front, back, k + 1);
    WholeFrame(m, ins, m, front, 1, k);
    WholeFrame(m, vs, m, back, k + 1, 0 - k - 1);
    assert (front + back)[k] == ins[0];
  }

  /** Splicing into node `k` itself. */
  lemma InsertedPending(m: Blocks, vs: seq<View>, k: nat, at: nat, x: View, split: bool)
    requires AllFit(m, vs) && OpenFrom(vs, k) && k < |vs| && Settled(vs, k) && at <= vs[k].malloc - vs[k].buf.len
    requires Fits(m, x) && Wrapped(x) && Open(x) && (!split ==> at == vs[k].malloc - vs[k].buf.len)
    ensures var vs' := vs[..k] + Insert(vs[k], at, x, split) + vs[k + 1..];
            && k < |vs| < |vs'| && AllFit(m, vs') && OpenFrom(vs', k) && Settled(vs', k)
            && vs'[..k] == vs[..k] && vs'[k].off == vs[k].off && vs'[k].buf == vs[k].buf
            && at <= |Pending(m, vs, k)|
            && Pending(m, vs', k) == Pending(m, vs, k)[..at] + Waiting(m, x) + Pending(m, vs, k)[at..]
  {
    hide Fits, Open, Ready, Waiting, Whole, FlatWhole, Insert, Wrapped;
    var ins := Insert(vs[k], at, x, split);
    InsertWhole(m, vs[k], at, x, split);
    PendingAround(m, vs, k, ins);
    var vs', wait := vs[..k] + ins + vs[k + 1..], Waiting(m, vs[k]);
    assert vs'[k] == ins[0] && vs'[..k] == vs[..k];
    WholeHead(m, vs, k);
    hide Pending;
    CutInside(wait, FlatWhole(m, vs, k + 1), at, Waiting(m, x));
    InsertSettled(vs, k, ins);
  }

  lemma CutInside(wait: seq<byte>, rest: seq<byte>, at: nat, t: seq<byte>)
    requires at <= |wait|
    ensures var p := wait + rest; (wait[..at] + t + wait[at..]) + rest == p[..at] + t + p[at..]
  {
    var p := wait + rest;
    assert p[..at] == wait[..at] && p[at..] == wait[at..] + rest;
  }

  lemma InsertSettled(vs: seq<View>, k: nat, ins: seq<View>)
    requires k < |vs| && Settled(vs, k) && Settled(ins, 0) && 0 < |ins|
    ensures Settled(vs[..k] + ins + vs[k + 1..], k)
  {
    var vs' := vs[..k] + ins + vs[k + 1..];
    forall i | k < i < |vs'|
      ensures vs'[i].off == vs'[i].buf.len
    {
      if i < k + |ins| { assert vs'[i] == ins[i - k]; } else { assert vs'[i] == vs[i - |ins| + 1]; }
    }
  }

  lemma {:induction false} WaitingNonneg(vs: seq<View>, k: nat)
    requires OpenFrom(vs, k)
    ensures 0 <= WaitingLen(vs, k)
    decreases |vs| - k
  {
    if k < |vs| { WaitingNonneg(vs, k + 1); }
  }

  lemma SplicedHere(vs: seq<View>, k: nat, at: nat, x: View, split: bool)
    requires k < |vs| && at <= vs[k].malloc - vs[k].buf.len
    ensures Spliced(vs, k, at, x, split) == vs[..k] + Insert(vs[k], at, x, split) + vs[k + 1..]
  {
  }

  lemma SplicedAfter(vs: seq<View>, k: nat, at: nat, x: View, split: bool)
    requires k < |vs| && OpenFrom(vs, k) && vs[k].malloc - vs[k].buf.len < at <= WaitingLen(vs, k)
    ensures var rest := at - (vs[k].malloc - vs[k].buf.len);
            && k + 1 < |vs| && rest <= WaitingLen(vs, k + 1)
            && Spliced(vs, k, at, x, split) == Spliced(vs, k + 1, rest, x, split)
  {
  }

  /** WriteDirect: the bytes of `x` are spliced in after the first `at` pending bytes. */
  lemma {:induction false} SplicedPending(m: Blocks, vs: seq<View>, k: nat, at: nat, x: View, split: bool)
    requires AllFit(m, vs) && OpenFrom(vs, k) && k < |vs| && Settled(vs, k) && at <= WaitingLen(vs, k)
    requires Fits(m, x) && Wrapped(x) && Open(x) && (!split ==> at == WaitingLen(vs, k))
    ensures var vs' := Spliced(vs, k, at, x, split);
            && k < |vs| < |vs'| && AllFit(m, vs') && OpenFrom(vs', k) && Settled(vs', k)
            && vs'[..k] == vs[..k] && vs'[k].off == vs[k].off && vs'[k].buf == vs[k].buf
            && at <= |Pending(m, vs, k)|
            && Pending(m, vs', k) == Pending(m, vs, k)[..at] + Waiting(m, x) + Pending(m, vs, k)[at..]
    decreases |vs| - k
  {
    hide Fits, Open, Ready, Waiting, Whole, Insert, Wrapped, Spliced, FlatWhole, Pending;
    WaitingNonneg(vs, k + 1);
    if at <= vs[k].malloc - vs[k].buf.len {
      SplicedHere(vs, k, at, x, split);
      InsertedPending(m, vs, k, at, x, split);
    } else {
      SplicedAfter(vs, k, at, x, split);
      hide WaitingLen;
      var vs', n := Spliced(vs, k, at, x, split), at - |Waiting(m, vs[k])|;
      SplicedPending(m, vs, k + 1, n, x, split);
      assert vs'[..k] == vs'[..k + 1][..k] && vs'[k] == vs'[..k + 1][k] == vs[k];
      PendingIsWhole(m, vs, k + 1);
      PendingIsWhole(m, vs', k + 1);
      SplicedOn(m, vs, vs', k, n, Waiting(m, x));
    }
  }

  /** The splice found behind node `k` is one behind its bytes. */
  lemma SplicedOn(m: Blocks, vs: seq<View>, vs': seq<View>, k: nat, n: nat, t: seq<byte>)
    requires AllFit(m, vs) && OpenFrom(vs, k) && k < |vs| && AllFit(m, vs') && OpenFrom(vs', k) && k < |vs'| && vs'[k] == vs[k]
    requires var rest := FlatWhole(m, vs, k + 1);
             n <= |rest| && FlatWhole(m, vs', k + 1) == rest[..n] + t + rest[n..]
    ensures var p, at := Pending(m, vs, k), n + |Waiting(m, vs[k])|;
            at <= |p| && Pending(m, vs', k) == p[..at] + t + p[at..]
  {
    hide Waiting, FlatWhole, Pending, Fits, Open, Whole;
    WholeHead(m, vs, k);
    WholeHead(m, vs', k);
    SpliceBehind(Waiting(m, vs[k]), FlatWhole(m, vs, k + 1), n, t);
  }
}
