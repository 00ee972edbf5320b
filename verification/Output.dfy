/** The output side of a connection: readable bytes are offered to the kernel as a vector of
    stretches of memory, the kernel takes as many as it likes, and those are skipped. */
module Output {
  import opened Prelude
  import opened LinkChain
  import opened LinkChainFrames
  import LB = LinkBuffer

  function Least(a: nat, b: nat): nat { if a < b then a else b }

  // ---------------------------------------------------------------- iovecs

  ghost predicate AllIn(m: Blocks, ps: seq<Slice>)
  {
    forall i :: 0 <= i < |ps| ==> InMemory(m, ps[i])
  }

  /** Appending slices one by one is appending their bytes. */
  lemma JoinedStep(m: Blocks, ps: seq<Slice>, i: nat)
    requires AllIn(m, ps) && i < |ps|
    ensures AllIn(m, ps[..i]) && AllIn(m, ps[..i + 1])
    ensures LB.Joined(m, ps[..i + 1]) == LB.Joined(m, ps[..i]) + Text(m, ps[i])
  {
    assert ps[..i + 1] == ps[..i] + [ps[i]];
    LB.JoinedMore(m, ps[..i], ps[i]);
  }

  lemma {:induction false} JoinedPrefix(m: Blocks, ps: seq<Slice>, i: nat)
    requires AllIn(m, ps) && i <= |ps|
    ensures AllIn(m, ps[..i]) && LB.Joined(m, ps[..i]) <= LB.Joined(m, ps)
    decreases |ps| - i
  {
    if i < |ps| {
      JoinedPrefix(m, ps, i + 1);
      JoinedStep(m, ps, i);
    } else {
      assert ps[..i] == ps;
    }
  }

  /** The entry for chunk `p` of which `n` bytes are offered. */
  function Entry(p: Slice, n: nat): Slice
  {
    Slice(p.block, p.lo, n, n)
  }

  lemma EntryText(m: Blocks, p: Slice, n: nat)
    requires InMemory(m, p) && n <= p.len
    ensures InMemory(m, Entry(p, n)) && Text(m, Entry(p, n)) == Text(m, p)[..n]
  {
    CutCut(m[p.block], p.lo, p.lo + p.len, 0, n);
  }

  /** The entries filled so far are the bytes of the first `i` chunks. */
  ghost predicate Filled(m: Blocks, bs: seq<Slice>, i: nat, out: seq<Slice>)
  {
    && i <= |bs| && AllIn(m, bs) && AllIn(m, bs[..i]) && AllIn(m, out)
    && (forall k :: 0 <= k < |out| ==> 0 < out[k].len)
    && |out| <= i && LB.Joined(m, out) == LB.Joined(m, bs[..i])
  }

  lemma FilledMore(m: Blocks, bs: seq<Slice>, i: nat, out: seq<Slice>, n: nat)
    requires Filled(m, bs, i, out) && i < |bs| && n <= bs[i].len
    ensures n == bs[i].len == 0 ==> Filled(m, bs, i + 1, out)
    ensures 0 < n == bs[i].len ==> Filled(m, bs, i + 1, out + [Entry(bs[i], n)])
    ensures |LB.Joined(m, out)| + n <= |LB.Joined(m, bs)|
    ensures AllIn(m, out + [Entry(bs[i], n)]) && LB.Joined(m, out + [Entry(bs[i], n)]) == LB.Joined(m, bs)[..|LB.Joined(m, out)| + n]
  {
    hide LB.Joined, Text;
    EntryText(m, bs[i], n);
    JoinedStep(m, bs, i);
    JoinedPrefix(m, bs, i);
    JoinedPrefix(m, bs, i + 1);
    LB.JoinedMore(m, out, Entry(bs[i], n));
    TakeMore(LB.Joined(m, bs[..i]), Text(m, bs[i]), LB.Joined(m, bs), n);
  }

  lemma TakeMore(a: seq<byte>, t: seq<byte>, all: seq<byte>, n: nat)
    requires a + t <= all && n <= |t|
    ensures |a| + n <= |all| && a + t[..n] == all[..|a| + n]
    ensures t[..|t|] == t && (t == [] ==> a + t == a)
  {
    assert (a + t)[..|a| + n] == a + t[..n];
  }

  /** iovecs: exactly the first min(total, 2^31-1) bytes of the chunks, in entries that are not empty. */
  method Iovecs(ghost m: Blocks, bs: seq<Slice>, ivs: array<Slice>) returns (iovLen: nat)
    requires AllIn(m, bs) && |bs| <= ivs.Length
    modifies ivs
    ensures iovLen <= |bs| && AllIn(m, ivs[..iovLen]) && forall k :: 0 <= k < iovLen ==> 0 < ivs[k].len
    ensures LB.Joined(m, ivs[..iovLen]) == LB.Joined(m, bs)[..Least(|LB.Joined(m, bs)|, MAX_INT32)]
  {
    hide LB.Joined, Text;
    var totalLen: nat, i: nat := 0, 0;
    iovLen := 0;
    LB.JoinedNone(m);
    while i < |bs|
      invariant i <= |bs| && iovLen <= i && Filled(m, bs, i, ivs[..iovLen])
      invariant totalLen == |LB.Joined(m, ivs[..iovLen])| < MAX_INT32
    {
      ghost var out := ivs[..iovLen];
      var chunk := bs[i];
      var l := chunk.len;
      FilledMore(m, bs, i, out, l);
      if l > 0 {
        totalLen := totalLen + l;
        if totalLen < MAX_INT32 {
          ivs[iovLen] := Entry(chunk, l);
          iovLen := iovLen + 1;
          assert ivs[..iovLen] == out + [Entry(chunk, l)];
        } else {
          var newLen: nat := MAX_INT32 - totalLen + l;
          FilledMore(m, bs, i, out, newLen);
          ivs[iovLen] := Entry(chunk, newLen);
          iovLen := iovLen + 1;
          assert ivs[..iovLen] == out + [Entry(chunk, newLen)];
          return;
        }
      }
      i := i + 1;
    }
    assert bs[..i] == bs;
  }

  /** The kernel takes what it has room for, up to all that is offered. */
  method Accepted(ghost m: Blocks, ivs: array<Slice>, iovLen: nat, accept: nat) returns (n: nat)
    requires iovLen <= ivs.Length && AllIn(m, ivs[..iovLen])
    ensures n == Least(accept, |LB.Joined(m, ivs[..iovLen])|)
  {
    hide LB.Joined;
    var total: nat, i: nat := 0, 0;
    LB.JoinedNone(m);
    while i < iovLen
      invariant i <= iovLen && AllIn(m, ivs[..i]) && total == |LB.Joined(m, ivs[..i])|
    {
      JoinedStep(m, ivs[..iovLen], i);
      assert ivs[..iovLen][..i] == ivs[..i] && ivs[..iovLen][..i + 1] == ivs[..i + 1];
      total := total + ivs[i].len;
      i := i + 1;
    }
    n := Least(accept, total);
  }

  lemma Offered(all: seq<byte>, chunks: seq<byte>, offer: seq<byte>)
    requires chunks <= all && offer == chunks[..Least(|chunks|, MAX_INT32)] && (all != [] ==> chunks != [])
    ensures offer <= all && (all != [] ==> 0 < |offer|)
  {
  }

  // ---------------------------------------------------------------- the stream

  /** The output buffer of a connection, with everything ever submitted and everything the kernel took. */
  class Stream {
    const buf: LB.LinkBuffer
    ghost var submitted: seq<byte>
    ghost var sent: seq<byte>

    /** Nothing is lost, repeated or reordered. */
    ghost predicate Valid()
      reads this, buf, buf.nodes, buf.mem
    {
      && buf.Valid() && buf.wi < |buf.views| && Settled(buf.views, buf.fi)
      && sent + buf.Bytes() == submitted
    }

    constructor (buf: LB.LinkBuffer)
      requires buf.Valid() && buf.wi < |buf.views| && Settled(buf.views, buf.fi)
      ensures this.buf == buf && Valid() && sent == [] && submitted == buf.Bytes()
    {
      this.buf := buf;
      sent, submitted := [], buf.Bytes();
    }

    /** Flush of the connection submits what is pending. */
    method Submit()
      requires Valid()
      modifies this`submitted, buf, buf.nodes, buf.mem`blocks
      ensures Valid() && sent == old(sent) && submitted == old(submitted) + old(buf.Tail()) && buf.Tail() == []
    {
      hide Settled, Sound, Readable, Pending, ReadyLen, AllFit, OpenFrom, Away, Text, LB.LinkBuffer.Linked, LB.LinkBuffer.PeekAgrees;
      ghost var was, tail := buf.Bytes(), buf.Tail();
      buf.Flush();
      Assoc(sent, was, tail);
      submitted := submitted + tail;
    }

    /** One write, by the user's flush or by the poller's outputs and outputAck: offer what the barrier has
        slots for, let the kernel take up to `accept` bytes of it, and drop those from the buffer. */
    method Send(slots: nat, ivs: array<Slice>, accept: nat) returns (n: nat)
      requires Valid() && 0 < slots <= ivs.Length
      modifies this`sent, buf, buf.nodes, buf.mem`blocks, ivs
      ensures Valid() && submitted == old(submitted) && n <= accept && n <= |old(buf.Bytes())|
      ensures sent == old(sent) + old(buf.Bytes())[..n] && buf.Bytes() == old(buf.Bytes())[n..] && buf.Tail() == old(buf.Tail())
      ensures 0 < accept && old(buf.Bytes()) != [] ==> 0 < n
    {
      hide Settled, LB.Joined, Sound, Readable, Pending, ReadyLen, AllFit, OpenFrom, Away, Text, LB.LinkBuffer.Linked, LB.LinkBuffer.PeekAgrees;
      ghost var text, m := buf.Bytes(), buf.mem.blocks;
      var bs := buf.GetBytes(slots);
      var iovLen := Iovecs(m, bs, ivs);
      n := Accepted(m, ivs, iovLen, accept);
      Offered(text, LB.Joined(m, bs), LB.Joined(m, ivs[..iovLen]));
      buf.OutputAck(n);
      sent := sent + text[..n];
      CutAgain(text, 0, n);
      Assoc(old(sent), text[..n], text[n..]);
    }
  }
}
