/** The byte chain under a LinkBuffer, as values: backing memory, slice headers, node views, and the
    two flat byte sequences a chain stands for.  Everything here is about all memories at once, so
    that bytes a user stores later through a slice it was given are covered as well. */
module LinkChain {

  newtype byte = b: int | 0 <= b < 256

  /** Backing arrays; an array is known by its position and never changes its size. */
  type Blocks = seq<seq<byte>>

  /** A Go slice header: array, start, length and capacity. */
  datatype Slice = Slice(block: nat, lo: nat, len: nat, cap: nat)

  const NIL := Slice(0, 0, 0, 0)

  /** What a node holds: its `buf`, the read offset, the write offset and the two mode bits.
      Offsets count from the start of `buf`. */
  datatype View = View(buf: Slice, off: nat, malloc: nat, readonly: bool, nocopy: bool)

  predicate InMemory(m: Blocks, s: Slice)
  {
    s.block < |m| && s.len <= s.cap && s.lo + s.cap <= |m[s.block]|
  }

  function Text(m: Blocks, s: Slice): (t: seq<byte>)
    requires InMemory(m, s)
    ensures |t| == s.len
  {
    m[s.block][s.lo..s.lo + s.len]
  }

  predicate Fits(m: Blocks, v: View)
  {
    InMemory(m, v.buf) && v.off <= v.buf.len && v.malloc <= v.buf.cap
  }

  /** A node at or after the flush position: what was malloced starts where the readable part ends. */
  predicate Open(v: View)
  {
    v.buf.len <= v.malloc
  }

  /** A node of the chain without any bytes, readable or malloced. */
  predicate Blank(v: View)
  {
    v.off == 0 && v.buf.len == 0 && v.malloc == 0
  }

  ghost predicate AllFit(m: Blocks, vs: seq<View>)
  {
    forall k :: 0 <= k < |vs| ==> Fits(m, vs[k])
  }

  // ---------------------------------------------------------------- the two flat sequences

  /** The bytes of one node that may be read. */
  function Ready(m: Blocks, v: View): (t: seq<byte>)
    requires Fits(m, v)
    ensures |t| == v.buf.len - v.off
  {
    m[v.buf.block][v.buf.lo + v.off..v.buf.lo + v.buf.len]
  }

  /** The bytes of one node that were handed out but not flushed. */
  function Waiting(m: Blocks, v: View): (t: seq<byte>)
    requires Fits(m, v) && Open(v)
    ensures |t| == v.malloc - v.buf.len
  {
    m[v.buf.block][v.buf.lo + v.buf.len..v.buf.lo + v.malloc]
  }

  /** Both. */
  function Whole(m: Blocks, v: View): seq<byte>
    requires Fits(m, v) && Open(v)
  {
    Ready(m, v) + Waiting(m, v)
  }

  ghost function Flat(m: Blocks, vs: seq<View>, i: nat, j: nat): seq<byte>
    requires AllFit(m, vs) && j <= |vs|
    decreases j - i
  {
    if i >= j then [] else Ready(m, vs[i]) + Flat(m, vs, i + 1, j)
  }

  ghost predicate OpenFrom(vs: seq<View>, f: nat)
  {
    forall k :: f <= k < |vs| ==> Open(vs[k])
  }

  ghost function FlatWhole(m: Blocks, vs: seq<View>, i: nat): seq<byte>
    requires AllFit(m, vs) && OpenFrom(vs, i)
    decreases |vs| - i
  {
    if i >= |vs| then [] else Whole(m, vs[i]) + FlatWhole(m, vs, i + 1)
  }

  /** What the next Flush makes readable, in order. */
  ghost function Pending(m: Blocks, vs: seq<View>, f: nat): seq<byte>
    requires AllFit(m, vs) && OpenFrom(vs, f)
  {
    if f >= |vs| then [] else Waiting(m, vs[f]) + FlatWhole(m, vs, f + 1)
  }

  /** The readable bytes: from the read node up to and with the flush node. */
  ghost function Readable(m: Blocks, vs: seq<View>, r: nat, f: nat): seq<byte>
    requires AllFit(m, vs)
  {
    Flat(m, vs, r, if f < |vs| then f + 1 else |vs|)
  }

  // ---------------------------------------------------------------- the two counters

  function ReadyLen(vs: seq<View>, i: nat, j: nat): int
    requires j <= |vs|
    decreases j - i
  {
    if i >= j then 0 else vs[i].buf.len - vs[i].off + ReadyLen(vs, i + 1, j)
  }

  function WaitingLen(vs: seq<View>, i: nat): int
    decreases |vs| - i
  {
    if i >= |vs| then 0 else vs[i].malloc - vs[i].buf.len + WaitingLen(vs, i + 1)
  }

  /** No appended buffer waits for a Flush: nothing is readable behind the flush node. */
  ghost predicate Settled(vs: seq<View>, f: nat)
  {
    forall k :: f < k < |vs| ==> vs[k].off == vs[k].buf.len
  }

  // ---------------------------------------------------------------- separation

  /** Where the last byte of a node that is or was in use ends. */
  function End(v: View): nat
  {
    v.buf.lo + if v.malloc < v.buf.len then v.buf.len else v.malloc
  }

  predicate SameArray(v: View, u: View)
  {
    !v.readonly && v.buf.block == u.buf.block
  }

  /** What the nodes from `w` on may still hand out belongs to nobody: whoever shares the array
      ends before it, and no two of them share one. */
  ghost predicate Apart(vs: seq<View>, w: nat)
  {
    forall i, j :: w <= i < |vs| && 0 <= j < |vs| && i != j && SameArray(vs[i], vs[j]) ==>
      End(vs[j]) <= vs[i].buf.lo + vs[i].malloc && (w <= j ==> vs[j].readonly)
  }

  /** The same even if everything malloced from `f` on were given back. */
  ghost predicate Own(vs: seq<View>, f: nat)
  {
    forall i, j :: f <= i < |vs| && 0 <= j < |vs| && i != j && SameArray(vs[i], vs[j]) ==>
      End(vs[j]) <= vs[i].buf.lo + vs[i].buf.len && (f <= j ==> vs[j].readonly)
  }

  // ---------------------------------------------------------------- laws

  lemma Assoc(a: seq<byte>, b: seq<byte>, c: seq<byte>)
    ensures (a + b) + c == a + (b + c)
  {
  }

  lemma CutCut(s: seq<byte>, a: nat, b: nat, c: nat, d: nat)
    requires a <= b <= |s| && c <= d <= b - a
    ensures s[a..b][c..d] == s[a + c..a + d]
  {
    var t, u := s[a..b][c..d], s[a + c..a + d];
    forall i | 0 <= i < d - c ensures t[i] == u[i] { assert t[i] == s[a..b][c + i] == s[a + c + i]; }
  }

  lemma CutAgain(text: seq<byte>, done: nat, k: nat)
    requires done + k <= |text|
    ensures text[..done + k] == text[..done] + text[done..][..k] && text[done + k..] == text[done..][k..]
    ensures text[done..][..k] == text[done..done + k]
  {
    CutCut(text, done, |text|, 0, k);
    assert text[done..|text|] == text[done..];
  }

  /** Cutting and inserting behind a front part. */
  lemma SpliceBehind(front: seq<byte>, rest: seq<byte>, n: nat, t: seq<byte>)
    requires n <= |rest|
    ensures var p, at := front + rest, n + |front|;
            p[..at] + t + p[at..] == front + (rest[..n] + t + rest[n..])
  {
    var p, at := front + rest, n + |front|;
    assert p[..at] == front + rest[..n] && p[at..] == rest[n..];
  }

  lemma FlatHead(m: Blocks, vs: seq<View>, i: nat, j: nat)
    requires AllFit(m, vs) && i < j <= |vs|
    ensures Flat(m, vs, i, j) == Ready(m, vs[i]) + Flat(m, vs, i + 1, j)
  {
  }

  lemma FlatOne(m: Blocks, vs: seq<View>, i: nat)
    requires AllFit(m, vs) && i < |vs|
    ensures Flat(m, vs, i, i + 1) == Ready(m, vs[i])
  {
    assert Flat(m, vs, i + 1, i + 1) == [];
  }

  lemma WholeHead(m: Blocks, vs: seq<View>, i: nat)
    requires AllFit(m, vs) && OpenFrom(vs, i) && i < |vs|
    ensures FlatWhole(m, vs, i) == Whole(m, vs[i]) + FlatWhole(m, vs, i + 1)
    ensures Pending(m, vs, i) == Waiting(m, vs[i]) + FlatWhole(m, vs, i + 1)
  {
  }

  lemma {:induction false} FlatFrame(m: Blocks, vs: seq<View>, m': Blocks, vs': seq<View>, i: nat, j: nat)
    requires AllFit(m, vs) && AllFit(m', vs') && j <= |vs| && j <= |vs'|
    requires forall k :: i <= k < j ==> Ready(m, vs[k]) == Ready(m', vs'[k])
    ensures Flat(m, vs, i, j) == Flat(m', vs', i, j)
    decreases j - i
  {
    hide Ready, Fits;
    if i < j { FlatFrame(m, vs, m', vs', i + 1, j); }
  }

  lemma {:induction false} WholeFrame(m: Blocks, vs: seq<View>, m': Blocks, vs': seq<View>, i: nat, d: int)
    requires AllFit(m, vs) && AllFit(m', vs') && 0 <= i + d && OpenFrom(vs, i) && OpenFrom(vs', i + d) && |vs'| == |vs| + d
    requires forall k :: i <= k < |vs| ==> Whole(m, vs[k]) == Whole(m', vs'[k + d])
    ensures FlatWhole(m, vs, i) == FlatWhole(m', vs', i + d)
    decreases |vs| - i
  {
    hide Whole, Fits, Open;
    if i < |vs| { WholeFrame(m, vs, m', vs', i + 1, d); }
  }

  lemma {:induction false} FlatSplit(m: Blocks, vs: seq<View>, i: nat, j: nat, k: nat)
    requires AllFit(m, vs) && i <= j <= k <= |vs|
    ensures Flat(m, vs, i, k) == Flat(m, vs, i, j) + Flat(m, vs, j, k)
    decreases j - i
  {
    hide Ready, Fits;
    if i < j { FlatSplit(m, vs, i + 1, j, k); }
  }

  lemma {:induction false} FlatLen(m: Blocks, vs: seq<View>, i: nat, j: nat)
    requires AllFit(m, vs) && j <= |vs|
    ensures |Flat(m, vs, i, j)| == ReadyLen(vs, i, j)
    decreases j - i
  {
    hide Ready, Fits;
    if i < j { FlatLen(m, vs, i + 1, j); }
  }

  lemma {:induction false} ReadyLenSplit(vs: seq<View>, i: nat, j: nat, k: nat)
    requires i <= j <= k <= |vs|
    ensures ReadyLen(vs, i, k) == ReadyLen(vs, i, j) + ReadyLen(vs, j, k)
    decreases j - i
  {
    if i < j { ReadyLenSplit(vs, i + 1, j, k); }
  }

  lemma {:induction false} ReadyLenFrame(vs: seq<View>, vs': seq<View>, i: nat, j: nat)
    requires j <= |vs| && j <= |vs'|
    requires forall k :: i <= k < j ==> vs[k].buf.len - vs[k].off == vs'[k].buf.len - vs'[k].off
    ensures ReadyLen(vs, i, j) == ReadyLen(vs', i, j)
    decreases j - i
  {
    if i < j { ReadyLenFrame(vs, vs', i + 1, j); }
  }

  /** In a settled chain the counter `length` is the number of readable bytes. */
  lemma SettledLen(m: Blocks, vs: seq<View>, r: nat, f: nat)
    requires AllFit(m, vs) && r <= |vs| && r <= f && Settled(vs, f)
    ensures |Readable(m, vs, r, f)| == ReadyLen(vs, r, |vs|)
  {
    var e := if f < |vs| then f + 1 else |vs|;
    FlatLen(m, vs, r, e);
    ReadyLenSplit(vs, r, e, |vs|);
    NothingReady(vs, e);
  }

  lemma {:induction false} NothingReady(vs: seq<View>, i: nat)
    requires i <= |vs| && forall k :: i <= k < |vs| ==> vs[k].off == vs[k].buf.len
    ensures ReadyLen(vs, i, |vs|) == 0
    decreases |vs| - i
  {
    if i < |vs| { NothingReady(vs, i + 1); }
  }

  /** Reading `n` bytes of the read node drops the first `n` readable bytes. */
  lemma Consume(m: Blocks, vs: seq<View>, r: nat, f: nat, n: nat)
    requires AllFit(m, vs) && r < |vs| && r <= f && n <= vs[r].buf.len - vs[r].off
    ensures var vs' := vs[r := vs[r].(off := vs[r].off + n)];
            && AllFit(m, vs') && n <= |Readable(m, vs, r, f)|
            && Ready(m, vs[r])[..n] == Readable(m, vs, r, f)[..n]
            && Readable(m, vs', r, f) == Readable(m, vs, r, f)[n..]
            && ReadyLen(vs', r, |vs'|) == ReadyLen(vs, r, |vs|) - n
  {
    var vs' := vs[r := vs[r].(off := vs[r].off + n)];
    var e := if f < |vs| then f + 1 else |vs|;
    FlatFrame(m, vs, m, vs', r + 1, e);
    ReadyLenFrame(vs, vs', r + 1, |vs|);
    assert Ready(m, vs'[r]) == Ready(m, vs[r])[n..];
  }

  /** The read node is empty and not the last one: the readable bytes start in the next. */
  lemma StepOver(m: Blocks, vs: seq<View>, r: nat, f: nat)
    requires AllFit(m, vs) && r < |vs| && r < f && vs[r].off == vs[r].buf.len
    ensures Readable(m, vs, r, f) == Readable(m, vs, r + 1, f)
    ensures ReadyLen(vs, r, |vs|) == ReadyLen(vs, r + 1, |vs|)
  {
  }
}
