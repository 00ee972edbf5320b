/** What the operations of a LinkBuffer give in sequence. */
module LinkBufferLaws {
  import opened LinkChain
  import opened LinkChainWriter
  import opened LinkChainApart
  import opened LinkChainFrames
  import opened LinkChainSteps
  import LB = LinkBuffer

  /** Append, then Flush: readable ++ own pending ++ the other's readable ++ the other's pending. */
  method AppendThenFlush(b: LB.LinkBuffer, buf: LB.LinkBuffer)
    requires b.Valid() && b.wi < |b.views|
    requires buf != b && buf.mem == b.mem && buf.Valid() && buf.wi < |buf.views| && buf.Counted() && 0 < buf.length + buf.mallocSize
    requires SealedTo(buf.views, buf.fi) && LB.Distinct(b.nodes, buf.nodes) && (b.cachePeek.cap > 0 ==> Away(buf.views, b.cachePeek.block))
    modifies b, b.nodes, buf, buf.nodes, b.mem`blocks
    ensures b.Valid() && b.Bytes() == old(b.Bytes()) + (old(b.Tail()) + (old(buf.Bytes()) + old(buf.Tail()))) && b.Tail() == []
  {
    hide LB.LinkBuffer.Linked, Sound, Readable, ReadyLen, WaitingLen, Pending, AllFit, SealedTo, Text, Apart, Own, Foreign, OpenFrom, Away, LB.Distinct, LB.LinkBuffer.PeekAgrees, Settled, Plain;
    b.WriteBuffer(buf);
    b.Flush();
  }

  /** MallocAck(n), then Flush, submits exactly the first n pending bytes, if at least one is kept. */
  method AckThenFlush(b: LB.LinkBuffer, n: int)
    requires b.Valid() && b.wi < |b.views| && Plain(b.views, b.fi) && Own(b.views, b.fi) && b.Counted() && 1 <= n <= b.mallocSize
    modifies b, b.nodes, b.mem`blocks
    ensures b.Valid() && n <= |old(b.Tail())| && b.Bytes() == old(b.Bytes()) + old(b.Tail())[..n] && b.Tail() == []
  {
    hide LB.LinkBuffer.Linked, Sound, Readable, ReadyLen, WaitingLen, Pending, AllFit, SealedTo, Text, Apart, Own, OpenFrom, Away, LB.LinkBuffer.PeekAgrees, Settled, Plain, Cuts;
    var ok := b.MallocAck(n);
    b.Flush();
  }

  /** What is pending once the handed-out slice `p` was filled, after a splice. */
  lemma SplicedAndFilled(m0: Blocks, m: Blocks, vs0: seq<View>, vs1: seq<View>, vs2: seq<View>, r: nat, f: nat, p: Slice, extra: Slice, at: nat, t: seq<byte>)
    requires AllFit(m0, vs0) && AllFit(m, vs0) && AllFit(m, vs1) && OpenFrom(vs0, f) && f < |vs0| && Extends(m0, m)
    requires Hands(vs0, vs1, f, p) && Splices(vs1, vs2, f, at, extra) && Untouched(vs0, p)
    requires InMemory(m, p) && |t| == p.len && InMemory(m, extra) && extra.block != p.block
    ensures var m' := Stored(m, p, t);
            && AllFit(m', vs2) && InMemory(m', extra) && Text(m', extra) == Text(m, extra)
            && at <= |Pending(m0, vs0, f) + t|
            && Pending(m', vs2, f) == (Pending(m0, vs0, f) + t)[..at] + Text(m, extra) + (Pending(m0, vs0, f) + t)[at..]
  {
    var m' := Stored(m, p, t);
    StoredFits(m, p, t, vs1);
    StoreInside(m, p, t);
    CacheBeside(m, p, t, extra);
    hide Stored, Text, Pending, Readable, Fits, InMemory, Extends;
    StoreUntouched(m, vs0, r, f, p, t);
    SamePending(m0, m, vs0, f);
    assert Pending(m', vs1, f) == Pending(m', vs0, f) + Text(m', p);
    assert Splices(vs1, vs2, f, at, extra);
  }

  lemma StoredFits(m: Blocks, p: Slice, t: seq<byte>, vs: seq<View>)
    requires AllFit(m, vs) && InMemory(m, p) && |t| == p.len
    ensures AllFit(Stored(m, p, t), vs)
  {
  }

  lemma SamePending(m: Blocks, m': Blocks, vs: seq<View>, f: nat)
    requires AllFit(m, vs) && Extends(m, m') && OpenFrom(vs, f)
    ensures AllFit(m', vs) && Pending(m', vs, f) == Pending(m, vs, f)
  {
    ExtendsSame(m, m', vs);
    SameArraysFrame(m, m', vs, 0, 0, f);
  }

  /** Malloc, WriteDirect, and only then store through the slice Malloc gave: after Flush the stored bytes
      are where they would be without the splice, on both sides of it. */
  method DirectThenFill(b: LB.LinkBuffer, n: nat, extra: Slice, remainLen: nat, t: seq<byte>)
    requires b.Valid() && b.wi < |b.views| && Settled(b.views, b.fi) && b.Counted() && Apart(b.views, b.wi)
    requires 0 < n == |t| && remainLen <= b.mallocSize + n && InMemory(b.mem.blocks, extra) && 0 < extra.len && Away(b.views, extra.block)
    requires b.cachePeek.cap > 0 ==> extra.block != b.cachePeek.block
    modifies b, b.nodes, b.mem`blocks
    ensures b.Valid() && b.Tail() == []
    ensures var all, at := old(b.Tail()) + t, old(b.mallocSize) + n - remainLen;
            at <= |all| && b.Bytes() == old(b.Bytes()) + (all[..at] + old(Text(b.mem.blocks, extra)) + all[at..])
  {
    hide LB.LinkBuffer.Linked, Sound, Readable, ReadyLen, WaitingLen, Pending, AllFit, SealedTo, Text, Apart, Own, OpenFrom, LB.LinkBuffer.PeekAgrees, Settled, Plain, Splices, Hands, Untouched, ReadyAway, Stored, Extends, SidesKept;
    ghost var m0, vs0 := b.mem.blocks, b.views;
    var p := b.Malloc(n);
    ghost var m1, vs1 := b.mem.blocks, b.views;
    CacheApart(b, b.wi);
    SamePending(m0, m1, vs0, b.fi);
    SidesApart(vs0, b.fi, old(b.wi), vs1, b.fi, b.wi);
    ExtendsText(m0, m1, extra);
    b.WriteDirect(extra, remainLen);
    ghost var vs2, at := b.views, old(b.mallocSize) + n - remainLen;
    SplicedAndFilled(m0, m1, vs0, vs1, vs2, b.ri, b.fi, p, extra, at, t);
    b.Fill(p, t);
    b.Flush();
  }

  lemma CacheApart(b: LB.LinkBuffer, k: nat)
    requires b.Valid() && k < |b.views|
    ensures b.cachePeek.cap > 0 ==> b.cachePeek.block != b.views[k].buf.block
  {
  }

  /** What is written and flushed is read back, in order, behind what was there. */
  method WriteThenRead(b: LB.LinkBuffer, s: Slice) returns (p: Slice)
    requires b.Valid() && b.wi < |b.views| && Apart(b.views, b.wi) && b.Bytes() == [] && b.Tail() == [] && Settled(b.views, b.fi)
    requires InMemory(b.mem.blocks, s) && 0 < s.len && (b.cachePeek.cap > 0 ==> s.block != b.cachePeek.block)
    modifies b, b.nodes, b.mem`blocks
    ensures b.Valid() && b.Bytes() == [] && InMemory(b.mem.blocks, p) && Text(b.mem.blocks, p) == old(Text(b.mem.blocks, s))
  {
    hide LB.LinkBuffer.Linked, Sound, Readable, ReadyLen, WaitingLen, Pending, AllFit, SealedTo, Text, Apart, Own, OpenFrom, Away, LB.LinkBuffer.PeekAgrees, Settled, Plain, SidesKept, HandsAt, Consumed, Extends;
    ghost var t := Text(b.mem.blocks, s);
    var n := b.WriteBinary(s);
    b.Flush();
    assert b.Bytes() == t;
    var ok: bool;
    p, ok := b.ReadBinary(n, false);
    assert t[..n] == t && t[n..] == [];
  }
}
