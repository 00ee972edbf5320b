/** The facts about a chain that each writer operation of a LinkBuffer relies on. */
module LinkChainSteps {
  import opened LinkChain
  import opened LinkChainWriter
  import opened LinkChainApart
  import opened LinkChainFrames

  lemma BlankWaits(m: Blocks, v: View)
    requires Fits(m, v) && Blank(v)
    ensures Open(v) && Unflushed(v) && Waiting(m, v) == [] && v.malloc == 0
  {
  }

  lemma GrownNone(vs: seq<View>)
    ensures GrownChain(vs, vs)
  {
  }

  lemma GrownOne(vs: seq<View>, w: nat, vs': seq<View>)
    requires w + 1 == |vs| && |vs'| == w + 2 && Blank(vs'[w + 1]) && vs' == Continued(vs, w, [vs'[w + 1]])
    ensures GrownChain(vs, vs')
  {
  }

  lemma ReserveFacts(m: Blocks, vs: seq<View>, vs': seq<View>, r: nat, f: nat, w: nat, w': nat, n: nat, lim: nat)
    requires Sound(m, vs', r, f, w') && f <= w < |vs| && w' < |vs'| && OpenFrom(vs, f) && GrownChain(vs, vs')
    requires !vs'[w'].readonly && n <= vs'[w'].buf.cap - vs'[w'].malloc && SidesKept(vs, f, w, vs', f, w')
    requires |vs| < |vs'| ==> vs'[|vs|].buf.block == lim
    ensures var vs'', p := vs'[w' := vs'[w'].(malloc := vs'[w'].malloc + n)], Handed(vs'[w'], n);
            && Sound(m, vs'', r, f, w') && Readable(m, vs'', r, f) == Readable(m, vs', r, f)
            && ReadyLen(vs'', r, |vs''|) == ReadyLen(vs', r, |vs'|) && WaitingLen(vs'', f) == WaitingLen(vs', f) + n
            && Hands(vs, vs'', f, p) && InMemory(m, p) && Pending(m, vs'', f) == Pending(m, vs', f) + Text(m, p)
            && SidesKept(vs, f, w, vs'', f, w') && (Apart(vs, w) ==> Untouched(vs, p) && ReadyAway(vs'', p))
            && AwayKept(vs, vs'', lim)
  {
    hide Readable, ReadyLen, WaitingLen, Pending, Apart, GrownChain, Text, Hands, Handed, Own, AwayKept, Untouched, ReadyAway;
    MallocSound(m, vs', r, f, w', n);
    MallocHands(vs, vs', f, w', n);
    MallocSides(vs', f, w', n);
    if Apart(vs, w) {
      MallocUntouched(vs, vs', w', n);
      HandedReadyAway(vs', w', n);
    }
    GrownAway(vs, vs', w', n, lim);
  }

  lemma GrownAway(vs: seq<View>, vs': seq<View>, w: nat, n: nat, lim: nat)
    requires GrownChain(vs, vs') && w < |vs'| && (|vs| < |vs'| ==> vs'[|vs|].buf.block == lim)
    ensures AwayKept(vs, vs'[w := vs'[w].(malloc := vs'[w].malloc + n)], lim)
  {
    forall k | 0 <= k < |vs| ensures vs'[k] == vs[k] {}
  }

  lemma CacheAway(m: Blocks, m': Blocks, vs: seq<View>, vs': seq<View>, s: Slice)
    requires Extends(m, m') && AwayKept(vs, vs', |m|) && InMemory(m, s) && (s.cap > 0 ==> Away(vs, s.block))
    ensures InMemory(m', s) && Text(m', s) == Text(m, s) && (s.cap > 0 ==> Away(vs', s.block))
  {
    ExtendsText(m, m', s);
  }

  lemma LinkFacts(m: Blocks, vs: seq<View>, r: nat, f: nat, w: nat, s: Slice)
    requires Sound(m, vs, r, f, w) && w < |vs| && InMemory(m, s)
    ensures var vs' := Continued(vs, w, [Wrapping(s)]);
            && Sound(m, vs', r, f, w + 1) && Readable(m, vs', r, f) == Readable(m, vs, r, f)
            && ReadyLen(vs', r, |vs'|) == ReadyLen(vs, r, |vs|) && WaitingLen(vs', f) == WaitingLen(vs, f) + s.len
            && Pending(m, vs', f) == Pending(m, vs, f) + Text(m, s)
            && HandsAt(vs, vs', f, s) && Apart(vs', w + 1)
            && (Settled(vs, f) ==> Settled(vs', f)) && (SealedTo(vs, f) ==> SealedTo(vs', f))
            && forall b: nat :: b != s.block && Away(vs, b) ==> Away(vs', b)
  {
    hide Readable, ReadyLen, WaitingLen, Pending, Apart, Own, Text, HandsAt, Settled, SealedTo, Plain, OpenFrom, AllFit, Blank, Open;
    WrappingWaits(m, s);
    LinkSound(m, vs, r, f, w, Wrapping(s));
    WrapHands(vs, f, w, s);
    LinkApart(vs, f, w, Wrapping(s));
    LinkPlain(vs, f, w, Wrapping(s));
  }

  lemma CopyFacts(m0: Blocks, m1: Blocks, vs: seq<View>, vs': seq<View>, r: nat, f: nat, w: nat, w': nat, p: Slice, t: seq<byte>)
    requires Sound(m0, vs, r, f, w) && Extends(m0, m1) && Sound(m1, vs', r, f, w') && w < |vs|
    requires Hands(vs, vs', f, p) && Untouched(vs, p) && InMemory(m1, p) && |t| == p.len
    ensures var m2 := Stored(m1, p, t);
            && Sound(m2, vs', r, f, w') && Readable(m2, vs', r, f) == Readable(m0, vs, r, f)
            && Pending(m2, vs', f) == Pending(m0, vs, f) + t
            && OnlySlice(m0, m2, p)
  {
    hide Readable, Pending, Stored, Text, OnlySlice, Untouched, BlankFrom;
    var m2 := Stored(m1, p, t);
    ExtendsSame(m0, m1, vs);
    ElsewhereSound(m0, m1, vs, r, f, w);
    hide SameArrays, Extends, Sound;
    StoreUntouched(m1, vs, r, f, p, t);
    StoreInside(m1, p, t);
    StoredOnly(m0, m1, p, t);
    StoredSound(m1, p, t, vs', r, f, w');
    assert Pending(m2, vs', f) == Pending(m2, vs, f) + Text(m2, p);
  }

  lemma StoredSound(m: Blocks, p: Slice, t: seq<byte>, vs: seq<View>, r: nat, f: nat, w: nat)
    requires Sound(m, vs, r, f, w) && InMemory(m, p) && |t| == p.len
    ensures Sound(Stored(m, p, t), vs, r, f, w)
  {
  }

  lemma CacheStored(m: Blocks, m': Blocks, vs: seq<View>, vs': seq<View>, s: Slice, p: Slice, w: nat)
    requires OnlySlice(m, m', p) && AwayKept(vs, vs', |m|) && InMemory(m, s) && (s.cap > 0 ==> Away(vs, s.block))
    requires w < |vs'| && p.block == vs'[w].buf.block
    ensures InMemory(m', s) && Text(m', s) == Text(m, s) && (s.cap > 0 ==> Away(vs', s.block))
  {
    CacheKept(m, m', p, s);
  }

  lemma SidesApart(vs: seq<View>, f: nat, w: nat, vs': seq<View>, f': nat, w': nat)
    requires SidesKept(vs, f, w, vs', f', w')
    ensures (Apart(vs, w) ==> Apart(vs', w')) && (Settled(vs, f) ==> Settled(vs', f')) && (SealedTo(vs, f) ==> SealedTo(vs', f'))
    ensures Own(vs, f) ==> Own(vs', f')
    ensures Plain(vs, f) ==> Plain(vs', f')
  {
    hide Apart, Settled, Own, Plain, SealedTo;
  }

  lemma SealNone(vs: seq<View>, f: nat)
    ensures SealedFrom(vs, f, f) == vs
  {
  }

  lemma FlushRest(m: Blocks, vs: seq<View>, r: nat, f: nat, w: nat)
    requires Sound(m, vs, r, f, w) && w < |vs|
    ensures WaitingLen(vs, w + 1) == 0
  {
    BlankRest(m, vs, w + 1);
  }

  lemma SealStep(vs: seq<View>, f: nat, k: nat)
    requires f <= k < |vs| && OpenFrom(vs, f)
    ensures |SealedFrom(vs, f, k)| == |vs| && SealedFrom(vs, f, k)[k] == vs[k] && Open(vs[k])
    ensures SealedFrom(vs, f, k)[k := Sealed(vs[k])] == SealedFrom(vs, f, k + 1)
    ensures vs[k].malloc == vs[k].buf.len ==> SealedFrom(vs, f, k) == SealedFrom(vs, f, k + 1)
    ensures WaitingLen(vs, k) == vs[k].malloc - vs[k].buf.len + WaitingLen(vs, k + 1)
  {
  }

  lemma FlushFacts(vs0: seq<View>, f: nat, w0: nat, vs: seq<View>, w: nat, m: Blocks, r: nat, b: nat)
    requires Sound(m, vs, r, f, w) && w < |vs| && SidesKept(vs0, f, w0, vs, f, w)
    ensures var vs' := SealedFrom(vs, f, w + 1);
            && Settled(vs', w) && Plain(vs', w) && (SealedTo(vs0, f) ==> SealedTo(vs', w)) && (Apart(vs0, w0) ==> Own(vs', w))
            && (Away(vs, b) ==> Away(vs', b))
  {
    hide Apart, Own, AllFit;
    FlushSides(vs, f, w);
  }

  lemma KeepsFits(vs: seq<View>, f: nat, n: nat)
    requires f < |vs| && OpenFrom(vs, f) && n <= WaitingLen(vs, f)
    ensures 0 <= Keeps(vs, f, n) <= WaitingLen(vs, f)
  {
    WaitingNonneg(vs, f + 1);
  }

  lemma SameBlanked(vs: seq<View>, vs': seq<View>, k: nat)
    requires k < |vs| && |vs'| == |vs| && vs' == vs[k := vs'[k]]
    ensures BlankedAt(vs', k, vs'[k], |vs|) == BlankedAt(vs, k, vs'[k], |vs|)
  {
  }

  lemma WaitingStep(vs: seq<View>, k: nat)
    requires k < |vs| && OpenFrom(vs, k)
    ensures WaitingLen(vs, k) == vs[k].malloc - vs[k].buf.len + WaitingLen(vs, k + 1) && 0 <= WaitingLen(vs, k + 1) && Open(vs[k])
  {
    WaitingNonneg(vs, k + 1);
  }

  lemma InsertedViews(vs: seq<View>, k: nat, v: seq<View>, ws: seq<View>)
    requires k < |vs| && |v| == 1
    ensures vs[k := v[0]][..k + 1] + ws + vs[k := v[0]][k + 1..] == vs[..k] + (v + ws) + vs[k + 1..]
  {
  }

  /** If the last node is read-only, nobody else uses its array. */
  ghost predicate LastAlone(vs: seq<View>)
  {
    0 < |vs| && vs[|vs| - 1].readonly ==> Alone(vs, |vs| - 1)
  }

  lemma DirectFacts(m: Blocks, vs: seq<View>, r: nat, f: nat, w: nat, at: nat, p: Slice, split: bool)
    requires Sound(m, vs, r, f, w) && w < |vs| && Settled(vs, f) && at <= WaitingLen(vs, f)
    requires InMemory(m, p) && (!split ==> at == WaitingLen(vs, f))
    ensures var vs' := Spliced(vs, f, at, Wrapping(p), split);
            && 0 < |vs'| && Sound(m, vs', r, f, |vs'| - 1) && Settled(vs', f) && Splices(vs, vs', f, at, p)
            && Readable(m, vs', r, f) == Readable(m, vs, r, f) && ReadyLen(vs', r, |vs'|) == ReadyLen(vs, r, |vs|)
            && at <= |Pending(m, vs, f)| && Pending(m, vs', f) == Pending(m, vs, f)[..at] + Text(m, p) + Pending(m, vs, f)[at..]
            && WaitingLen(vs', f) == WaitingLen(vs, f) + p.len && (SealedTo(vs, f) ==> SealedTo(vs', f))
  {
    hide Spliced, Splices, Pending, Readable, ReadyLen, WaitingLen, Settled, Text, SealedTo, BlankFrom;
    SpliceAll(m, vs, f, at, p, split);
    SpliceSound(m, vs, r, f, w, at, p, split);
  }

  lemma WrappingIs(s: Slice)
    ensures Wrapping(s) == View(Slice(s.block, s.lo, 0, s.cap), 0, s.len, true, false)
  {
  }

  lemma SplicedApart(vs: seq<View>, w: nat, k: nat, rest: nat, p: Slice, split: bool, cache: Slice)
    requires w < |vs| && k < |vs| && Open(vs[k]) && rest <= vs[k].malloc - vs[k].buf.len
    ensures var vs' := vs[..k] + Insert(vs[k], rest, Wrapping(p), split) + vs[k + 1..];
            && (Apart(vs, w) && Away(vs, p.block) && LastAlone(vs) ==> Apart(vs', |vs'| - 1))
            && (Away(vs, cache.block) && p.block != cache.block ==> Away(vs', cache.block))
            && ReadyKept(vs, vs')
  {
    hide Apart, Alone, Away, ReadyAway;
    var vs' := vs[..k] + Insert(vs[k], rest, Wrapping(p), split) + vs[k + 1..];
    if Apart(vs, w) && Away(vs, p.block) && LastAlone(vs) {
      AwayFrom(vs, p.block);
      ApartInserted(vs, w, k, rest, Wrapping(p), split);
    }
    InsertAway(vs, k, rest, p, split, cache.block);
    forall q: Slice | ReadyAway(vs, q) ensures ReadyAway(vs', q) { InsertReadyAway(vs, k, rest, Wrapping(p), split, q); }
  }

  /** Slices that held no readable byte still hold none. */
  ghost predicate ReadyKept(vs: seq<View>, vs': seq<View>)
  {
    forall q: Slice :: ReadyAway(vs, q) ==> ReadyAway(vs', q)
  }

  lemma AwayFrom(vs: seq<View>, b: nat)
    requires Away(vs, b)
    ensures forall j :: 0 <= j < |vs| ==> vs[j].buf.block != b
  {
  }

  lemma InsertAway(vs: seq<View>, k: nat, rest: nat, p: Slice, split: bool, b: nat)
    requires k < |vs|
    ensures Away(vs, b) && p.block != b ==> Away(vs[..k] + Insert(vs[k], rest, Wrapping(p), split) + vs[k + 1..], b)
  {
  }

  lemma AppendFacts(vs: seq<View>, w: nat, ws: seq<View>, r2: nat, w2: nat, cache: Slice)
    requires w < |vs| && r2 <= w2 < |ws|
    ensures var vs' := Continued(vs, w, Core(ws, r2, w2));
            && (Foreign(vs, ws) && Apart(ws, w2) ==> Apart(vs', |vs'| - 1))
            && (Away(vs, cache.block) && Away(ws, cache.block) ==> Away(vs', cache.block))
  {
    hide Foreign, Apart, Away, Core;
    if Foreign(vs, ws) && Apart(ws, w2) { AppendApart(vs, w, ws, r2, w2); }
    if Away(vs, cache.block) && Away(ws, cache.block) { AppendAway(vs, w, ws, r2, w2, cache.block); }
  }

  // ---------------------------------------------------------------- booking

  /** Nothing is pending but what the write node has. */
  ghost predicate OnlyLast(vs: seq<View>, f: nat, w: nat)
  {
    forall k :: f <= k < w && k < |vs| ==> vs[k].malloc == vs[k].buf.len
  }

  function Trimmed(v: View, n: nat): View
  {
    v.(malloc := n + v.buf.len)
  }

  /** What is pending is what the write node has. */
  lemma {:induction false} LastPending(m: Blocks, vs: seq<View>, f: nat, w: nat)
    requires AllFit(m, vs) && OpenFrom(vs, f) && f <= w < |vs| && BlankFrom(vs, w + 1) && OnlyLast(vs, f, w) && Settled(vs, f)
    ensures Pending(m, vs, f) == Waiting(m, vs[w]) && WaitingLen(vs, f) == vs[w].malloc - vs[w].buf.len
    decreases w - f
  {
    hide Fits, Open, Waiting, Whole, FlatWhole, Pending, Blank;
    WholeHead(m, vs, f);
    if f == w {
      BlankRest(m, vs, w + 1);
    } else {
      LastPending(m, vs, f + 1, w);
      PendingIsWhole(m, vs, f + 1);
      assert Waiting(m, vs[f]) == [];
    }
  }

  lemma TrimSound(m: Blocks, vs: seq<View>, r: nat, f: nat, w: nat, n: nat)
    requires Sound(m, vs, r, f, w) && w < |vs| && OnlyLast(vs, f, w) && Settled(vs, f) && n <= vs[w].malloc - vs[w].buf.len
    ensures var vs' := vs[w := Trimmed(vs[w], n)];
            && Sound(m, vs', r, f, w) && Readable(m, vs', r, f) == Readable(m, vs, r, f) && ReadyLen(vs', r, |vs'|) == ReadyLen(vs, r, |vs|)
            && n <= |Pending(m, vs, f)| && Pending(m, vs', f) == Pending(m, vs, f)[..n] && WaitingLen(vs', f) == n
            && SealedFrom(vs', f, w + 1) == vs[w := Sealed(Trimmed(vs[w], n))]
  {
    var vs' := vs[w := Trimmed(vs[w], n)];
    AckedNode(m, vs[w], n);
    TrimShape(vs, f, w, n);
    hide Fits, Open, Waiting, Pending, ReadyLen, WaitingLen, SealedFrom, Readable, Sealed;
    LastPending(m, vs, f, w);
    LastPending(m, vs', f, w);
    CountReplaced(vs, r, w, Trimmed(vs[w], n));
    TrimReadable(m, vs, r, f, w, n);
  }

  lemma TrimShape(vs: seq<View>, f: nat, w: nat, n: nat)
    requires OpenFrom(vs, f) && f <= w < |vs| && BlankFrom(vs, w + 1) && OnlyLast(vs, f, w) && Settled(vs, f)
    ensures var vs' := vs[w := Trimmed(vs[w], n)];
            && OpenFrom(vs', f) && BlankFrom(vs', w + 1) && OnlyLast(vs', f, w) && Settled(vs', f)
            && SealedFrom(vs', f, w + 1) == vs[w := Sealed(Trimmed(vs[w], n))]
  {
  }

  lemma TrimReadable(m: Blocks, vs: seq<View>, r: nat, f: nat, w: nat, n: nat)
    requires AllFit(m, vs) && f <= w < |vs| && Fits(m, Trimmed(vs[w], n))
    ensures AllFit(m, vs[w := Trimmed(vs[w], n)]) && Readable(m, vs[w := Trimmed(vs[w], n)], r, f) == Readable(m, vs, r, f)
  {
    FlatFrame(m, vs, m, vs[w := Trimmed(vs[w], n)], r, f + 1);
  }

  /** No node from the flush node on has anything pending. */
  ghost predicate Quiet(vs: seq<View>, f: nat)
  {
    forall k :: f <= k < |vs| ==> vs[k].malloc == vs[k].buf.len
  }

  /** Reading keeps what an input buffer has to be between bookings. */
  lemma ReadBookable(vs: seq<View>, vs': seq<View>, f: nat, w: nat)
    requires Consumed(vs, vs', f) && f <= w < |vs|
    ensures Quiet(vs, f) ==> Quiet(vs', f)
    ensures Own(vs, f) ==> Own(vs', f)
    ensures |vs'| == |vs| && vs'[w].readonly == vs[w].readonly && vs'[w].buf == vs[w].buf && vs'[w].malloc == vs[w].malloc
  {
    hide Apart;
    ConsumedApart(vs, vs', f, w);
  }

  lemma QuietPending(m: Blocks, vs: seq<View>, f: nat, w: nat)
    requires AllFit(m, vs) && OpenFrom(vs, f) && f <= w < |vs| && BlankFrom(vs, w + 1) && Quiet(vs, f) && Settled(vs, f)
    ensures Pending(m, vs, f) == []
  {
    hide Fits, Pending, Blank;
    LastPending(m, vs, f, w);
  }

  /** After a booking only the write node has something pending. */
  lemma BookShape(vs: seq<View>, vs': seq<View>, f: nat, w: nat, n: nat)
    requires GrownChain(vs, vs') && Quiet(vs, f) && Settled(vs, f) && f < |vs| && w + 1 == |vs'| && f <= w
    ensures var vs'' := vs'[w := vs'[w].(malloc := vs'[w].malloc + n)];
            OnlyLast(vs'', f, w) && Settled(vs'', f) && vs''[w].malloc == vs''[w].buf.len + n
  {
    forall k | 0 <= k < |vs| ensures vs'[k] == vs[k] {}
  }

  lemma AckShape(vs: seq<View>, f: nat, w: nat, n: nat)
    requires f <= w && w + 1 == |vs| && OnlyLast(vs, f, w) && Settled(vs, f)
    ensures var vs' := vs[w := Sealed(Trimmed(vs[w], n))]; Quiet(vs', w) && Settled(vs', w) && (forall b: nat :: Away(vs, b) ==> Away(vs', b))
  {
  }

  /** Acking gives back what was booked and not filled. */
  lemma AckOwn(vs: seq<View>, f: nat, w: nat, n: nat)
    requires f <= w && w + 1 == |vs| && Own(vs, f) && n <= vs[w].malloc - vs[w].buf.len
    ensures Own(vs[w := Sealed(Trimmed(vs[w], n))], w)
  {
    var vs' := vs[w := Sealed(Trimmed(vs[w], n))];
    forall j | 0 <= j < w && SameArray(vs'[w], vs'[j])
      ensures End(vs'[j]) <= vs'[w].buf.lo + vs'[w].buf.len
    {
      assert SameArray(vs[w], vs[j]);
    }
  }

  lemma OwnHere(m: Blocks, vs: seq<View>, r: nat, f: nat, w: nat)
    requires Sound(m, vs, r, f, w) && w < |vs| && Own(vs, f)
    ensures Apart(vs, w)
  {
    OwnApart(vs, f, w);
  }

  lemma CapFits(m: Blocks, vs: seq<View>, r: nat, f: nat, w: nat)
    requires Sound(m, vs, r, f, w) && w < |vs|
    ensures vs[w].malloc <= vs[w].buf.cap
  {
  }

  /** What the kernel stored in a booking is the beginning of what is pending. */
  lemma DeliverFacts(m0: Blocks, m1: Blocks, vs: seq<View>, vs': seq<View>, r: nat, f: nat, w: nat, w': nat, p: Slice, t: seq<byte>)
    requires Sound(m0, vs, r, f, w) && Extends(m0, m1) && Sound(m1, vs', r, f, w') && w < |vs| && Quiet(vs, f) && Settled(vs, f)
    requires Hands(vs, vs', f, p) && Untouched(vs, p) && InMemory(m1, p) && |t| == p.len
    ensures var m2 := Stored(m1, p, t);
            && Sound(m2, vs', r, f, w') && Readable(m2, vs', r, f) == Readable(m0, vs, r, f) && Pending(m2, vs', f) == t
            && OnlySlice(m0, m2, p)
  {
    hide Readable, Pending, Stored, Text, OnlySlice, Untouched, Hands, Quiet, Settled, Extends;
    CopyFacts(m0, m1, vs, vs', r, f, w, w', p, t);
    QuietPending(m0, vs, f, w);
  }

  lemma SealedTrimmed(v: View, n: nat)
    ensures Trimmed(v, n) == v.(malloc := n + v.buf.len)
    ensures Sealed(Trimmed(v, n)) == v.(malloc := n + v.buf.len, buf := v.buf.(len := n + v.buf.len))
  {
  }

  // ---------------------------------------------------------------- storing through slices

  /** No readable byte lies in `p`. */
  ghost predicate ReadyAway(vs: seq<View>, p: Slice)
  {
    forall k :: 0 <= k < |vs| && vs[k].buf.block == p.block && vs[k].off < vs[k].buf.len ==>
      vs[k].buf.lo + vs[k].buf.len <= p.lo || p.lo + p.len <= vs[k].buf.lo + vs[k].off
  }

  lemma HandedReadyAway(vs: seq<View>, w: nat, n: nat)
    requires Apart(vs, w) && w < |vs| && !vs[w].readonly && Open(vs[w])
    ensures ReadyAway(vs[w := vs[w].(malloc := vs[w].malloc + n)], Handed(vs[w], n))
  {
    HandedApart(vs, w, n);
    hide Apart;
  }

  lemma InsertReadyAway(vs: seq<View>, k: nat, rest: nat, x: View, split: bool, p: Slice)
    requires k < |vs| && ReadyAway(vs, p) && Wrapped(x)
    ensures ReadyAway(vs[..k] + Insert(vs[k], rest, x, split) + vs[k + 1..], p)
  {
    var ins := Insert(vs[k], rest, x, split);
    var vs' := vs[..k] + ins + vs[k + 1..];
    forall i | 0 <= i < |vs'| && vs'[i].buf.block == p.block && vs'[i].off < vs'[i].buf.len
      ensures vs'[i].buf.lo + vs'[i].buf.len <= p.lo || p.lo + p.len <= vs'[i].buf.lo + vs'[i].off
    {
      if i < k { assert vs'[i] == vs[i]; }
      else if i < k + |ins| { assert vs'[i] == ins[i - k]; }
      else { assert vs'[i] == vs[i - |ins| + 1]; }
    }
  }

  lemma StoreBeside(m: Blocks, s: Slice, t: seq<byte>, v: View)
    requires InMemory(m, s) && |t| == s.len && Fits(m, v)
    requires v.buf.block == s.block && v.off < v.buf.len ==> v.buf.lo + v.buf.len <= s.lo || s.lo + s.len <= v.buf.lo + v.off
    ensures Fits(Stored(m, s, t), v) && Ready(Stored(m, s, t), v) == Ready(m, v)
  {
    var a, a' := m[s.block], Stored(m, s, t)[s.block];
    assert forall k :: 0 <= k < |a| && (k < s.lo || s.lo + s.len <= k) ==> a'[k] == a[k];
  }

  lemma StoreReadyAway(m: Blocks, vs: seq<View>, r: nat, f: nat, w: nat, p: Slice, t: seq<byte>)
    requires Sound(m, vs, r, f, w) && w < |vs| && ReadyAway(vs, p) && InMemory(m, p) && |t| == p.len
    ensures var m' := Stored(m, p, t); Sound(m', vs, r, f, w) && Readable(m', vs, r, f) == Readable(m, vs, r, f)
  {
    StoredSound(m, p, t, vs, r, f, w);
    var m' := Stored(m, p, t);
    forall k | 0 <= k < |vs| ensures Ready(m', vs[k]) == Ready(m, vs[k]) {
      hide Stored, Ready, Fits, InMemory, Sound;
      StoreBeside(m, p, t, vs[k]);
    }
    hide Stored, Ready, Fits, InMemory, ReadyAway;
    FlatFrame(m, vs, m', vs, r, f + 1);
  }

  lemma CacheBeside(m: Blocks, p: Slice, t: seq<byte>, s: Slice)
    requires InMemory(m, p) && |t| == p.len && InMemory(m, s) && (s.cap > 0 ==> s.block != p.block)
    ensures InMemory(Stored(m, p, t), s) && Text(Stored(m, p, t), s) == Text(m, s)
  {
  }
}
