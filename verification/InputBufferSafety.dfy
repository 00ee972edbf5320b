/** What every interleaving of the poller and the user keeps. */
module InputBufferSafety {
  import opened LinkChain
  import opened InputBuffer

  // ---------------------------------------------------------------- the chain

  /** The readable part of a node is the stretch of the acked bytes that starts at its base. */
  ghost predicate Holds(nd: Node, acked: seq<byte>)
  {
    && nd.off <= nd.len <= |nd.text| && nd.base + nd.len <= |acked|
    && nd.text[..nd.len] == acked[nd.base..nd.base + nd.len]
  }

  ghost predicate Ordered(c: Chain)
  {
    c.head <= c.read <= c.flush <= c.write < |c.nodes| <= c.write + 2
  }

  /** The nodes follow each other without gap, up to the last acked byte, and nothing behind the read
      node has been read. */
  ghost predicate Linked(c: Chain, acked: seq<byte>)
  {
    && Ordered(c)
    && (forall k :: 0 <= k < |c.nodes| ==> Holds(c.nodes[k], acked))
    && (forall k :: 0 < k < |c.nodes| ==> c.nodes[k].base == c.nodes[k - 1].base + c.nodes[k - 1].len)
    && (forall k :: c.read < k < |c.nodes| ==> c.nodes[k].off == 0)
    && c.nodes[|c.nodes| - 1].base + c.nodes[|c.nodes| - 1].len == |acked|
  }

  // ---------------------------------------------------------------- the writer's side

  predicate InBook(p: Poller) { !p.Away? }

  predicate InReset(u: User) { u.Again? || u.Link? || u.MoveWrite? || u.MoveFlush? || u.Unlock? }

  /** The write node, as the poller left it. */
  ghost predicate Booked(p: Poller, nd: Node)
  {
    && nd.len <= nd.malloc <= |nd.text|
    && (p.Reading? ==> nd.malloc == nd.len + p.size)
    && (p.Sizing? || p.Sealing? ==> nd.len + |p.data| <= nd.malloc && nd.text[nd.len..nd.len + |p.data|] == p.data)
    && (p.Sealing? ==> nd.malloc == nd.len + |p.data|)
    && (!p.Reading? && !p.Sizing? && !p.Sealing? ==> nd.malloc == nd.len)
  }

  ghost predicate Writer(c: Chain, p: Poller, u: User)
  {
    && c.write < |c.nodes| && Booked(p, c.nodes[c.write])
    && (c.op == ThePoller <==> InBook(p)) && (c.op == TheUser <==> InReset(u))
    && (|c.nodes| == c.write + 2 <==> p.Growing? || u.MoveWrite?)
    && (|c.nodes| == c.write + 2 ==> c.nodes[c.write + 1].len == c.nodes[c.write + 1].malloc == 0)
    && (p.Counting? ==> c.flush == c.write)
  }

  /** Acked but not counted yet. */
  function Pending(p: Poller): nat
  {
    if p.Flushing? || p.Counting? then |p.data| else 0
  }

  /** `length` counts no byte that does not lie before the end of the flush node. */
  ghost predicate Counted(c: Chain, p: Poller, h: History)
  {
    && c.flush < |c.nodes| && h.published <= c.nodes[c.flush].base + c.nodes[c.flush].len
    && h.published + Pending(p) == |h.acked| && h.promised <= h.published && c.length == h.published - h.promised
  }

  // ---------------------------------------------------------------- the reader's side

  /** How many claimed bytes the user has not passed yet. */
  function Owed(u: User): nat
  {
    if (u.Probe? || u.Probed? || u.Hop? || u.TakeOne?) && !u.op.Peek? then u.n
    else if u.Walk? || u.Walked? || u.Pass? then u.ack
    else 0
  }

  /** How far the user is going to read from where it is. */
  function Need(u: User): nat
  {
    if u.Probe? || u.Probed? || u.Hop? || u.TakeOne? || u.Cached? || u.Look? || u.Looked? then u.n
    else if u.Walk? || u.Walked? || u.Pass? then u.ack
    else 0
  }

  function Pos(c: Chain): int
    requires c.read < |c.nodes|
  {
    c.nodes[c.read].base + c.nodes[c.read].off
  }

  /** A length that was loaded from node `k`: if it does not reach `need`, the node is not the flush
      node any more and its length is final. */
  ghost predicate Seen(c: Chain, k: nat, l: nat, need: int)
  {
    k < |c.nodes| && l <= Len(c.nodes[k]) && (l < need ==> k < c.flush && l == Len(c.nodes[k]))
  }

  ghost predicate Reader(c: Chain, u: User, h: History)
  {
    && c.read < |c.nodes| && Pos(c) + Owed(u) == h.promised && Pos(c) + Need(u) <= h.published
    && |h.consumed| == Pos(c) && h.consumed <= h.acked
  }

  /** The loads and decisions the user holds on to. */
  ghost predicate Local(c: Chain, u: User, length: int)
  {
    && (u.Claim? ==> !u.op.Peek? && 0 < u.n <= length)
    && (u.Probed? ==> Seen(c, c.read, u.l, u.n))
    && (u.Walked? ==> Seen(c, c.read, u.l, u.ack))
    && (u.Hop? || u.Empty? || u.Follow? || u.Pass? ==> c.read < c.flush)
    && (u.Hop? || u.Follow? ==> c.read < |c.nodes| && Len(c.nodes[c.read]) == 0)
    && (u.TakeOne? ==> c.read < |c.nodes| && u.n <= Len(c.nodes[c.read]))
    && (u.Pass? ==> c.read < |c.nodes| && Len(c.nodes[c.read]) == u.l && if u.op.Skip? then u.l < u.ack else u.l == 0)
    && (u.Walk? || u.Walked? || u.Pass? ==> 0 < u.ack <= u.n && !u.op.Peek?)
    && (u.Probe? || u.Probed? || u.Hop? || u.TakeOne? ==> 0 < u.n && !u.op.Skip?)
  }

  /** What a Next that spans nodes has collected. */
  ghost predicate Collected(u: User, h: History)
  {
    (u.Walk? || u.Walked? || u.Pass?) && u.op.Next? ==>
      && u.ack <= u.n <= h.promised && h.promised - u.ack <= |h.acked|
      && u.out == h.acked[h.promised - u.n..h.promised - u.ack]
  }

  /** The peek cache, and where Peek's loop is. */
  ghost predicate Peeking(c: Chain, cache: seq<byte>, u: User, h: History)
  {
    && c.read < |c.nodes| && 0 <= Pos(c) && Pos(c) + |cache| <= h.published && Pos(c) + |cache| <= |h.acked|
    && cache == h.acked[Pos(c)..Pos(c) + |cache|]
    && (0 < Owed(u) ==> cache == [])
    && (u.Cached? ==> u.n <= |cache|)
    && (u.Look? || u.Looked? ==>
          && c.read <= u.k <= c.flush && u.k < |c.nodes| && u.scanned <= |cache| < u.n
          && u.scanned == c.nodes[u.k].base + c.nodes[u.k].off - Pos(c))
    && (u.Looked? ==> Seen(c, u.k, u.l, u.n - u.scanned))
  }

  ghost predicate True(h: History)
  {
    forall i :: 0 <= i < |h.results| ==>
      h.results[i].0 + |h.results[i].1| <= |h.acked|
      && h.results[i].1 == h.acked[h.results[i].0..h.results[i].0 + |h.results[i].1|]
  }

  ghost predicate Inv(s: State)
  {
    && Linked(s.c, s.h.acked) && Writer(s.c, s.poller, s.user) && Counted(s.c, s.poller, s.h)
    && Reader(s.c, s.user, s.h) && Local(s.c, s.user, s.c.length) && Collected(s.user, s.h)
    && Peeking(s.c, s.cache, s.user, s.h) && True(s.h)
  }

  lemma InitInv(s: State)
    requires Init(s)
    ensures Inv(s)
  {
  }

  // ---------------------------------------------------------------- the poller keeps it

  /** What the poller does to the chain, seen from the user: nodes are added behind, and the write node
      may grow in place. */
  ghost predicate GrowsBehind(c: Chain, c': Chain)
  {
    && c'.read == c.read && c'.head == c.head && c.flush <= c'.flush && c.write <= c'.write && |c.nodes| <= |c'.nodes|
    && (forall k :: 0 <= k < |c.nodes| && k != c.write ==> c'.nodes[k] == c.nodes[k])
    && (c.write < |c.nodes| ==>
          var a, b := c.nodes[c.write], c'.nodes[c.write]; b.base == a.base && b.off == a.off && a.len <= b.len)
  }

  lemma PollerGrows(s: State, e: Choice)
    requires PollerEnabled(s, e) && Ordered(s.c) && Writer(s.c, s.poller, s.user)
    ensures GrowsBehind(s.c, PollerStep(s, e).c)
    ensures PollerStep(s, e).user == s.user && PollerStep(s, e).cache == s.cache
    ensures var h' := PollerStep(s, e).h;
            s.h.acked <= h'.acked && s.h.published <= h'.published && h' == s.h.(acked := h'.acked, published := h'.published)
    ensures s.c.length <= PollerStep(s, e).c.length
  {
  }

  /** Any stretch of a node's readable part, as acked. */
  lemma HoldsPart(nd: Node, acked: seq<byte>, a: nat, b: nat)
    requires Holds(nd, acked) && a <= b <= nd.len
    ensures nd.text[a..b] == acked[nd.base + a..nd.base + b]
  {
    CutCut(nd.text, 0, nd.len, a, b);
    CutCut(acked, nd.base, nd.base + nd.len, a, b);
    assert nd.text[..nd.len] == nd.text[0..nd.len];
  }

  lemma HoldsMore(nd: Node, acked: seq<byte>, acked': seq<byte>)
    requires Holds(nd, acked) && acked <= acked'
    ensures Holds(nd, acked')
  {
  }

  /** The write node's new bytes, at the end of what was acked. */
  lemma SealHolds(nd: Node, acked: seq<byte>, data: seq<byte>)
    requires Holds(nd, acked) && nd.base + nd.len == |acked| && nd.malloc == nd.len + |data| <= |nd.text|
    requires nd.text[nd.len..nd.malloc] == data
    ensures Holds(nd.(len := nd.malloc), acked + data)
  {
    assert nd.text[..nd.malloc] == nd.text[..nd.len] + nd.text[nd.len..nd.malloc];
    assert (acked + data)[nd.base..nd.base + nd.malloc] == acked[nd.base..] + data;
    assert acked[nd.base..] == acked[nd.base..nd.base + nd.len];
  }

  lemma SpliceFacts(text: seq<byte>, at: nat, data: seq<byte>)
    requires at + |data| <= |text|
    ensures |Splice(text, at, data)| == |text| && Splice(text, at, data)[..at] == text[..at]
    ensures Splice(text, at, data)[at..at + |data|] == data
  {
  }

  /** A node changes, but neither its place nor its readable part. */
  lemma LinkedSet(c: Chain, acked: seq<byte>, k: nat, nd: Node)
    requires Linked(c, acked) && k < |c.nodes| && Holds(nd, acked) && nd.base == c.nodes[k].base && nd.len == c.nodes[k].len
    requires k <= c.read || nd.off == 0
    ensures Linked(SetNode(c, k, nd), acked)
  {
    hide Holds;
  }

  lemma LinkedAdd(c: Chain, acked: seq<byte>, text: seq<byte>)
    requires Linked(c, acked) && |c.nodes| == c.write + 1
    ensures Linked(c.(nodes := c.nodes + [NewNode(c, text)]), acked)
  {
    assert Holds(NewNode(c, text), acked);
    hide Holds;
  }

  lemma LinkedSeal(c: Chain, acked: seq<byte>, data: seq<byte>)
    requires Linked(c, acked) && |c.nodes| == c.write + 1
    requires var nd := c.nodes[c.write]; nd.malloc == nd.len + |data| <= |nd.text| && nd.text[nd.len..nd.malloc] == data
    ensures Linked(SetNode(c, c.write, c.nodes[c.write].(len := c.nodes[c.write].malloc)), acked + data)
  {
    var nd := c.nodes[c.write];
    SealHolds(nd, acked, data);
    hide Holds;
    forall k | 0 <= k < |c.nodes| ensures Holds(c.nodes[k], acked + data) {
      HoldsMore(c.nodes[k], acked, acked + data);
    }
  }

  lemma LinkedMove(c: Chain, c': Chain, acked: seq<byte>)
    requires Linked(c, acked) && c'.nodes == c.nodes && c'.read == c.read && Ordered(c')
    ensures Linked(c', acked)
  {
    hide Holds;
  }

  lemma LinkedFacts(c: Chain, acked: seq<byte>)
    requires Linked(c, acked)
    ensures Ordered(c) && Holds(c.nodes[c.write], acked) && (c.read < c.write ==> c.nodes[c.write].off == 0)
  {
  }

  /** The write offset and the bytes behind the readable part are nobody's business. */
  lemma HoldsWrite(nd: Node, acked: seq<byte>, malloc: nat, at: nat, data: seq<byte>)
    requires Holds(nd, acked) && nd.len <= at && at + |data| <= |nd.text|
    ensures Holds(nd.(malloc := malloc), acked) && Holds(nd.(text := Splice(nd.text, at, data)), acked)
  {
    SpliceFacts(nd.text, at, data);
    var text := Splice(nd.text, at, data);
    hide Splice;
    assert text[..nd.len] == text[..at][..nd.len] && nd.text[..nd.len] == nd.text[..at][..nd.len];
  }

  lemma PollerLinked(s: State, e: Choice)
    requires PollerEnabled(s, e) && Linked(s.c, s.h.acked) && Writer(s.c, s.poller, s.user)
    ensures Linked(PollerStep(s, e).c, PollerStep(s, e).h.acked)
  {
    hide Linked, Holds, Splice, NewNode, SetNode;
    LinkedFacts(s.c, s.h.acked);
    var nd, s' := s.c.nodes[s.c.write], PollerStep(s, e);
    if s.poller.Booking? {
      if s.c.op == ThePoller { LinkedAdd(s.c, s.h.acked, e.room); }
    } else if s.poller.Reading? {
      var at := nd.malloc - s.poller.size;
      HoldsWrite(nd, s.h.acked, 0, at, e.data);
      LinkedSet(s.c, s.h.acked, s.c.write, nd.(text := Splice(nd.text, at, e.data)));
    } else if s.poller.Sealing? {
      LinkedSeal(s.c, s.h.acked, s.poller.data);
    } else if s.poller.Reserving? {
      HoldsWrite(nd, s.h.acked, nd.malloc + e.size, nd.len, []);
      LinkedSet(s.c, s.h.acked, s.c.write, nd.(malloc := nd.malloc + e.size));
    } else if s.poller.Sizing? {
      HoldsWrite(nd, s.h.acked, |s.poller.data| + nd.len, nd.len, []);
      LinkedSet(s.c, s.h.acked, s.c.write, nd.(malloc := |s.poller.data| + nd.len));
    } else {
      LinkedMove(s.c, s'.c, s.h.acked);
    }
  }

  lemma PollerWriter(s: State, e: Choice)
    requires PollerEnabled(s, e) && Linked(s.c, s.h.acked) && Writer(s.c, s.poller, s.user)
    ensures Writer(PollerStep(s, e).c, PollerStep(s, e).poller, s.user)
  {
    var nd := s.c.nodes[s.c.write];
    if s.poller.Reading? {
      SpliceFacts(nd.text, nd.malloc - s.poller.size, e.data);
      hide Splice;
    }
  }

  lemma PollerCounted(s: State, e: Choice)
    requires PollerEnabled(s, e) && Linked(s.c, s.h.acked) && Writer(s.c, s.poller, s.user) && Counted(s.c, s.poller, s.h)
    ensures var s' := PollerStep(s, e); Counted(s'.c, s'.poller, s'.h)
  {
  }

  /** The user does not notice the poller. */
  lemma ReaderGrows(c: Chain, c': Chain, u: User, h: History, h': History)
    requires GrowsBehind(c, c') && Ordered(c) && Reader(c, u, h) && h.acked <= h'.acked
    requires h' == h.(acked := h'.acked, published := h'.published) && h.published <= h'.published
    ensures Reader(c', u, h')
  {
  }

  lemma LocalGrows(c: Chain, c': Chain, u: User, l: int, l': int)
    requires GrowsBehind(c, c') && Ordered(c) && Local(c, u, l) && l <= l'
    ensures Local(c', u, l')
  {
  }

  lemma CollectedGrows(u: User, h: History, h': History)
    requires Collected(u, h) && h.acked <= h'.acked && h'.promised == h.promised
    ensures Collected(u, h')
  {
  }

  lemma PeekingGrows(c: Chain, c': Chain, cache: seq<byte>, u: User, h: History, h': History)
    requires GrowsBehind(c, c') && Ordered(c) && Peeking(c, cache, u, h) && h.acked <= h'.acked && h.published <= h'.published
    ensures Peeking(c', cache, u, h')
  {
  }

  lemma TrueGrows(h: History, h': History)
    requires True(h) && h.acked <= h'.acked && h'.results == h.results
    ensures True(h')
  {
  }

  lemma PollerInv(s: State, e: Choice)
    requires PollerEnabled(s, e) && Inv(s)
    ensures Inv(PollerStep(s, e))
  {
    hide Linked, Writer, Counted, Reader, Local, Collected, Peeking, True, PollerEnabled, PollerStep, GrowsBehind;
    var s' := PollerStep(s, e);
    PollerLinked(s, e);
    PollerWriter(s, e);
    PollerCounted(s, e);
    LinkedOrdered(s.c, s.h.acked);
    PollerGrows(s, e);
    ReaderGrows(s.c, s'.c, s.user, s.h, s'.h);
    LocalGrows(s.c, s'.c, s.user, s.c.length, s'.c.length);
    CollectedGrows(s.user, s.h, s'.h);
    PeekingGrows(s.c, s'.c, s.cache, s.user, s.h, s'.h);
    TrueGrows(s.h, s'.h);
  }

  lemma LinkedOrdered(c: Chain, acked: seq<byte>)
    requires Linked(c, acked)
    ensures Ordered(c)
  {
  }

  // ---------------------------------------------------------------- the user keeps it

  /** read = read.next, from a node that is not the flush node. */
  lemma LinkedHop(c: Chain, acked: seq<byte>)
    requires Linked(c, acked) && c.read < c.flush
    ensures Linked(c.(read := c.read + 1), acked)
    ensures Pos(c.(read := c.read + 1)) == Pos(c) + Len(c.nodes[c.read])
  {
    hide Holds;
  }

  lemma LinkedConsume(c: Chain, acked: seq<byte>, n: nat)
    requires Linked(c, acked) && n <= Len(c.nodes[c.read])
    ensures var nd := c.nodes[c.read];
            && nd.off + n <= |nd.text| && Linked(SetNode(c, c.read, nd.(off := nd.off + n)), acked)
            && 0 <= Pos(c) && Pos(c) + n <= |acked| && Bytes(nd, n) == acked[Pos(c)..Pos(c) + n]
  {
    var nd := c.nodes[c.read];
    assert Holds(nd, acked);
    hide Linked;
    HoldsPart(nd, acked, nd.off, nd.off + n);
    LinkedSet(c, acked, c.read, nd.(off := nd.off + n));
  }

  /** If node `k` does not reach `need` bytes beyond where it starts to be read, it is not the flush node. */
  lemma SeenNow(c: Chain, p: Poller, h: History, k: nat, at: int, need: int)
    requires Linked(c, h.acked) && Counted(c, p, h) && k <= c.flush && at == c.nodes[k].base + c.nodes[k].off && at + need <= h.published
    ensures 0 <= Len(c.nodes[k]) && Seen(c, k, Len(c.nodes[k]), need)
  {
    assert Holds(c.nodes[k], h.acked);
  }

  /** The fields of the chain that the poller relies on are as they were. */
  ghost predicate SameTail(c: Chain, c': Chain)
  {
    && c'.op == c.op && c'.write == c.write && c'.flush == c.flush && |c'.nodes| == |c.nodes|
    && forall k :: 0 <= k < |c.nodes| ==> c'.nodes[k] == c.nodes[k].(off := c'.nodes[k].off)
  }

  lemma WriterSame(c: Chain, c': Chain, p: Poller, u: User, u': User)
    requires Writer(c, p, u) && SameTail(c, c') && InReset(u) == InReset(u') && u.MoveWrite? == u'.MoveWrite?
    ensures Writer(c', p, u')
  {
  }

  lemma CountedSame(c: Chain, c': Chain, p: Poller, h: History, h': History)
    requires Counted(c, p, h) && SameTail(c, c') && h'.acked == h.acked && h'.published == h.published
    requires h.promised <= h'.promised <= h.published && c'.length - c.length == h.promised - h'.promised
    ensures Counted(c', p, h')
  {
  }

  // ---- Next, Skip, Peek up to the first node

  lemma ReadChain(s: State, e: Choice)
    requires UserEnabled(s, e) && InRead(s.user) && Linked(s.c, s.h.acked) && Local(s.c, s.user, s.c.length)
    requires Writer(s.c, s.poller, s.user) && Counted(s.c, s.poller, s.h)
    ensures var s' := ReadStep(s, e);
            Linked(s'.c, s'.h.acked) && Writer(s'.c, s.poller, s'.user) && Counted(s'.c, s.poller, s'.h) && SameTail(s.c, s'.c)
  {
    hide Linked, Writer, Counted;
    var s' := ReadStep(s, e);
    LinkedFacts(s.c, s.h.acked);
    if s.user.Hop? { LinkedHop(s.c, s.h.acked); } else { LinkedMove(s.c, s'.c, s.h.acked); }
    assert SameTail(s.c, s'.c);
    WriterSame(s.c, s'.c, s.poller, s.user, s'.user);
    CountedLength(s.c, s.poller, s.h);
    CountedSame(s.c, s'.c, s.poller, s.h, s'.h);
  }

  lemma CountedLength(c: Chain, p: Poller, h: History)
    requires Counted(c, p, h)
    ensures c.length == h.published - h.promised && h.promised <= h.published <= |h.acked|
  {
  }

  lemma ReadReader(s: State, e: Choice)
    requires UserEnabled(s, e) && InRead(s.user) && Inv(s)
    ensures var s' := ReadStep(s, e); Reader(s'.c, s'.user, s'.h) && Collected(s'.user, s'.h) && True(s'.h)
  {
    hide Linked, Writer, True;
    LinkedFacts(s.c, s.h.acked);
    if s.user.Hop? { LinkedHop(s.c, s.h.acked); }
    assert ReadStep(s, e).h == s.h.(promised := ReadStep(s, e).h.promised);
    TrueSame(s.h, ReadStep(s, e).h);
  }

  lemma TrueSame(h: History, h': History)
    requires True(h) && h'.acked == h.acked && h'.results == h.results
    ensures True(h')
  {
  }

  lemma ReadLocal(s: State, e: Choice)
    requires UserEnabled(s, e) && InRead(s.user) && Inv(s)
    ensures var s' := ReadStep(s, e); Local(s'.c, s'.user, s'.c.length)
  {
    hide Linked, Writer, True, Peeking, Collected, Counted;
    LinkedFacts(s.c, s.h.acked);
    if s.user.Probe? { SeenNow(s.c, s.poller, s.h, s.c.read, Pos(s.c), s.user.n); }
  }

  lemma ReadPeeking(s: State, e: Choice)
    requires UserEnabled(s, e) && InRead(s.user) && Inv(s)
    ensures var s' := ReadStep(s, e); Peeking(s'.c, s'.cache, s'.user, s'.h)
  {
    hide Linked, Writer, True, Collected, Counted, Seen, Reader, Holds, Peeking;
    LinkedFacts(s.c, s.h.acked);
    if s.user.Hop? { LinkedHop(s.c, s.h.acked); }
    PeekingOwed(s.c, s.cache, s.user, s.h);
    var s' := ReadStep(s, e);
    assert s'.c.read < |s'.c.nodes| && Pos(s'.c) == Pos(s.c);
    assert 0 < Owed(s'.user) ==> s'.cache == [];
    PeekingSame(s.c, s'.c, s.cache, s'.cache, s.user, s'.user, s.h, s'.h);
  }

  lemma PeekingOwed(c: Chain, cache: seq<byte>, u: User, h: History)
    requires Peeking(c, cache, u, h)
    ensures 0 < Owed(u) ==> cache == []
  {
  }

  /** The position stays, and the cache is kept or emptied. */
  lemma PeekingSame(c: Chain, c': Chain, cache: seq<byte>, cache': seq<byte>, u: User, u': User, h: History, h': History)
    requires Peeking(c, cache, u, h) && c'.read < |c'.nodes| && Pos(c') == Pos(c) && h'.acked == h.acked && h'.published == h.published
    requires (cache' == cache || cache' == []) && (0 < Owed(u') ==> cache' == [])
    requires !u'.Looked? && (u'.Cached? ==> u'.n <= |cache'|)
    requires u'.Look? ==> u'.k == c'.read <= c'.flush && u'.scanned == 0 && |cache'| < u'.n
    ensures Peeking(c', cache', u', h')
  {
  }

  lemma ReadInv(s: State, e: Choice)
    requires UserEnabled(s, e) && InRead(s.user) && Inv(s)
    ensures Inv(ReadStep(s, e))
  {
    ReadChain(s, e);
    ReadReader(s, e);
    ReadLocal(s, e);
    ReadPeeking(s, e);
    hide *;
  }

  // ---- Next and Skip over one node or several

  lemma JoinParts(acked: seq<byte>, a: nat, b: nat, c: nat)
    requires a <= b <= c <= |acked|
    ensures acked[a..b] + acked[b..c] == acked[a..c]
  {
  }

  lemma PrefixMore(done: seq<byte>, acked: seq<byte>, n: nat)
    requires done <= acked && |done| + n <= |acked|
    ensures done + acked[|done|..|done| + n] <= acked
  {
    JoinParts(acked, 0, |done|, |done| + n);
    assert done == acked[0..|done|] && acked[0..|done| + n] <= acked;
  }

  lemma TrueMore(h: History, at: nat, t: seq<byte>)
    requires True(h) && at + |t| <= |h.acked| && t == h.acked[at..at + |t|]
    ensures True(h.(results := h.results + [(at, t)]))
  {
  }

  /** How many bytes a take step moves over in the read node. */
  function Moved(s: State): nat
    requires InTake(s.user)
  {
    if s.user.TakeOne? && !s.user.op.Peek? then s.user.n
    else if s.user.Walked? && s.user.l >= s.user.ack then s.user.ack
    else if s.user.Walked? && !s.user.op.Skip? then s.user.l
    else 0
  }

  lemma TakeMoves(s: State, e: Choice)
    requires UserEnabled(s, e) && InTake(s.user) && Linked(s.c, s.h.acked) && Local(s.c, s.user, s.c.length)
    ensures var s', n, nd := TakeStep(s, e), Moved(s), s.c.nodes[s.c.read];
            && 0 <= Len(nd) && n <= Len(nd) && nd.off + Len(nd) <= |nd.text| && nd.off + n <= |nd.text|
            && s'.cache == s.cache && s'.poller == s.poller && !InReset(s'.user)
            && s'.h == s.h.(consumed := s'.h.consumed, results := s'.h.results)
            && (if s.user.Pass? then s'.c == s.c.(read := s.c.read + 1) && s.c.read < s.c.flush
                else s'.c == SetNode(s.c, s.c.read, nd.(off := nd.off + n)))
            && s'.h.consumed == s.h.consumed + Bytes(nd, if s.user.Pass? then Len(nd) else n)
  {
    var nd := s.c.nodes[s.c.read];
    assert Holds(nd, s.h.acked);
    assert nd.(off := nd.off + 0) == nd && s.c.nodes[s.c.read := nd] == s.c.nodes && s.h.consumed + [] == s.h.consumed;
    hide Linked;
  }

  lemma TakeChain(s: State, e: Choice)
    requires UserEnabled(s, e) && InTake(s.user) && Linked(s.c, s.h.acked) && Local(s.c, s.user, s.c.length)
    requires Writer(s.c, s.poller, s.user) && Counted(s.c, s.poller, s.h)
    ensures var s' := TakeStep(s, e);
            Linked(s'.c, s'.h.acked) && Writer(s'.c, s.poller, s'.user) && Counted(s'.c, s.poller, s'.h) && SameTail(s.c, s'.c)
  {
    hide Linked, Writer, Counted, TakeStep, Local, UserEnabled, Bytes, Moved;
    TakeMoves(s, e);
    var s' := TakeStep(s, e);
    if s.user.Pass? { LinkedHop(s.c, s.h.acked); } else { LinkedConsume(s.c, s.h.acked, Moved(s)); }
    LinkedFacts(s.c, s.h.acked);
    assert SameTail(s.c, s'.c);
    WriterSame(s.c, s'.c, s.poller, s.user, s'.user);
    CountedLength(s.c, s.poller, s.h);
    CountedSame(s.c, s'.c, s.poller, s.h, s'.h);
  }

  /** The position moves as far as bytes were taken. */
  lemma TakePos(s: State, e: Choice)
    requires UserEnabled(s, e) && InTake(s.user) && Linked(s.c, s.h.acked) && Local(s.c, s.user, s.c.length)
    ensures var s', nd := TakeStep(s, e), s.c.nodes[s.c.read];
            var n := if s.user.Pass? then Len(nd) else Moved(s);
            && 0 <= Pos(s.c) && 0 <= n && nd.off + n <= |nd.text| && Pos(s.c) + n <= |s.h.acked|
            && s'.c.read < |s'.c.nodes| && Pos(s'.c) == Pos(s.c) + n
            && Bytes(nd, n) == s.h.acked[Pos(s.c)..Pos(s.c) + n]
  {
    hide Linked, TakeStep, Local, UserEnabled, Bytes, Moved;
    LinkedFacts(s.c, s.h.acked);
    TakeMoves(s, e);
    if s.user.Pass? { LinkedHop(s.c, s.h.acked); }
    LinkedConsume(s.c, s.h.acked, if s.user.Pass? then Len(s.c.nodes[s.c.read]) else Moved(s));
  }

  lemma TakeReader(s: State, e: Choice)
    requires UserEnabled(s, e) && InTake(s.user) && Inv(s)
    ensures var s' := TakeStep(s, e); Reader(s'.c, s'.user, s'.h)
  {
    hide Linked, Writer, Peeking, Bytes, Seen, Collected, True;
    TakePos(s, e);
    TakeMoves(s, e);
    var nd := s.c.nodes[s.c.read];
    PrefixMore(s.h.consumed, s.h.acked, if s.user.Pass? then Len(nd) else Moved(s));
  }

  lemma TakeCollected(s: State, e: Choice)
    requires UserEnabled(s, e) && InTake(s.user) && Inv(s)
    ensures Collected(TakeStep(s, e).user, TakeStep(s, e).h)
  {
    hide Linked, Writer, Peeking, Bytes, Seen, True, Counted;
    TakePos(s, e);
    if s.user.Walked? && s.user.op.Next? {
      JoinParts(s.h.acked, s.h.promised - s.user.n, Pos(s.c), Pos(s.c) + Moved(s));
    }
  }

  /** What a Next over several nodes returns is the stretch it claimed. */
  lemma WalkTrue(s: State, e: Choice)
    requires UserEnabled(s, e) && Inv(s) && s.user.Walked? && s.user.op.Next? && s.user.l >= s.user.ack
    ensures True(TakeStep(s, e).h)
  {
    hide Linked, Writer, Bytes, Seen, True, Counted, Peeking;
    TakePos(s, e);
    var nd, at := s.c.nodes[s.c.read], s.h.promised - s.user.n;
    JoinParts(s.h.acked, at, Pos(s.c), Pos(s.c) + Moved(s));
    TrueMore(s.h, at, s.user.out + Bytes(nd, s.user.ack));
    TrueSame(s.h.(results := s.h.results + [(at, s.user.out + Bytes(nd, s.user.ack))]), TakeStep(s, e).h);
  }

  lemma TakeTrue(s: State, e: Choice)
    requires UserEnabled(s, e) && InTake(s.user) && Inv(s)
    ensures True(TakeStep(s, e).h)
  {
    hide Linked, Writer, Bytes, Seen, True, Counted, Peeking, Collected;
    if s.user.TakeOne? {
      TakePos(s, e);
      var n, nd := s.user.n, s.c.nodes[s.c.read];
      LinkedConsume(s.c, s.h.acked, n);
      TrueMore(s.h, Pos(s.c), Bytes(nd, n));
      TrueSame(s.h.(results := s.h.results + [(Pos(s.c), Bytes(nd, n))]), TakeStep(s, e).h);
    } else if s.user.Walked? && s.user.op.Next? && s.user.l >= s.user.ack {
      WalkTrue(s, e);
    } else {
      TrueSame(s.h, TakeStep(s, e).h);
    }
  }

  lemma TakeLocal(s: State, e: Choice)
    requires UserEnabled(s, e) && InTake(s.user) && Inv(s)
    ensures var s' := TakeStep(s, e); Local(s'.c, s'.user, s'.c.length)
  {
    hide Linked, Writer, Peeking, Bytes, True, Collected, Counted;
    LinkedFacts(s.c, s.h.acked);
    if s.user.Walk? { SeenNow(s.c, s.poller, s.h, s.c.read, Pos(s.c), s.user.ack); }
  }

  lemma TakePeeking(s: State, e: Choice)
    requires UserEnabled(s, e) && InTake(s.user) && Inv(s)
    ensures var s' := TakeStep(s, e); Peeking(s'.c, s'.cache, s'.user, s'.h)
  {
    hide Linked, Writer, Bytes, True, Collected, Counted, Seen;
    TakeMoves(s, e);
    TakePos(s, e);
    LinkedFacts(s.c, s.h.acked);
  }

  lemma TakeInv(s: State, e: Choice)
    requires UserEnabled(s, e) && InTake(s.user) && Inv(s)
    ensures Inv(TakeStep(s, e))
  {
    hide Linked, Writer, Counted, Reader, Local, Collected, Peeking, True, UserEnabled, TakeStep, SameTail;
    TakeChain(s, e);
    TakeMoves(s, e);
    TakeReader(s, e);
    TakeLocal(s, e);
    TakeCollected(s, e);
    TakePeeking(s, e);
    TakeTrue(s, e);
  }

  // ---- Peek over several nodes

  /** Nothing but the cache and the results change in Peek's loop. */
  lemma PeekSame(s: State, e: Choice)
    requires UserEnabled(s, e) && InPeek(s.user) && Inv(s)
    ensures var s' := PeekStep(s, e);
            && s'.c == s.c && s'.poller == s.poller && s'.h == s.h.(results := s'.h.results)
            && (s'.user.Idle? || s'.user.Look? || s'.user.Looked?)
            && (s'.user.Look? || s'.user.Looked? ==> s'.user.n == s.user.n)
  {
    hide Linked, Writer, Counted, Reader, Local, Collected, Peeking, True;
  }

  lemma PeekOther(s: State, e: Choice)
    requires UserEnabled(s, e) && InPeek(s.user) && Inv(s)
    ensures var s' := PeekStep(s, e);
            && Linked(s'.c, s'.h.acked) && Writer(s'.c, s'.poller, s'.user) && Counted(s'.c, s'.poller, s'.h)
            && Reader(s'.c, s'.user, s'.h) && Local(s'.c, s'.user, s'.c.length) && Collected(s'.user, s'.h)
  {
    hide Linked, Counted, Peeking, True, UserEnabled, PeekStep;
    PeekSame(s, e);
    CountedHistory(s.c, s.poller, s.h, PeekStep(s, e).h);
  }

  lemma CountedHistory(c: Chain, p: Poller, h: History, h': History)
    requires Counted(c, p, h) && h'.acked == h.acked && h'.published == h.published && h'.promised == h.promised
    ensures Counted(c, p, h')
  {
  }

  /** The part of a node that Peek copies next continues the cache. */
  lemma PeekPart(c: Chain, cache: seq<byte>, acked: seq<byte>, k: nat, scanned: nat, n: nat)
    requires Linked(c, acked) && k < |c.nodes| && 0 <= Pos(c) && scanned == c.nodes[k].base + c.nodes[k].off - Pos(c)
    requires scanned <= |cache| && |cache| - scanned + n <= Len(c.nodes[k])
    requires Pos(c) + |cache| <= |acked| && cache == acked[Pos(c)..Pos(c) + |cache|]
    ensures var nd, start := c.nodes[k], |cache| - scanned;
            && nd.off + start + n <= |nd.text| && Pos(c) + |cache| + n <= |acked|
            && cache + nd.text[nd.off + start..nd.off + start + n] == acked[Pos(c)..Pos(c) + |cache| + n]
  {
    var nd, start := c.nodes[k], |cache| - scanned;
    assert Holds(nd, acked);
    hide Linked;
    HoldsPart(nd, acked, nd.off + start, nd.off + start + n);
    JoinParts(acked, Pos(c), Pos(c) + |cache|, Pos(c) + |cache| + n);
  }

  /** How much of the node Peek copies. */
  function Copied(s: State): int
    requires s.user.Looked?
  {
    var room := s.user.l - (|s.cache| - s.user.scanned);
    if s.user.n - |s.cache| > room then room else s.user.n - |s.cache|
  }

  lemma PeekLook(s: State, e: Choice)
    requires UserEnabled(s, e) && s.user.Look? && Inv(s)
    ensures var s' := PeekStep(s, e); Peeking(s'.c, s'.cache, s'.user, s'.h)
  {
    hide Linked, Writer, True, Collected, Local, Counted, Seen;
    LinkedFacts(s.c, s.h.acked);
    SeenNow(s.c, s.poller, s.h, s.user.k, Pos(s.c) + s.user.scanned, s.user.n - s.user.scanned);
  }

  lemma PeekSkipped(s: State, e: Choice)
    requires UserEnabled(s, e) && s.user.Looked? && Inv(s) && s.user.scanned + s.user.l <= |s.cache|
    ensures var s' := PeekStep(s, e); Peeking(s'.c, s'.cache, s'.user, s'.h)
  {
    hide Linked, Writer, True, Collected, Local, Counted;
    LinkedFacts(s.c, s.h.acked);
    NextNode(s.c, s.h.acked, s.user.k);
  }

  lemma PeekCopied(s: State, e: Choice)
    requires UserEnabled(s, e) && s.user.Looked? && Inv(s) && s.user.scanned + s.user.l > |s.cache|
    ensures var s' := PeekStep(s, e); Peeking(s'.c, s'.cache, s'.user, s'.h)
  {
    hide Linked, Writer, True, Collected, Local, Counted;
    LinkedFacts(s.c, s.h.acked);
    var u := s.user;
    if u.l < u.n - u.scanned { NextNode(s.c, s.h.acked, u.k); }
    PeekPart(s.c, s.cache, s.h.acked, u.k, u.scanned, Copied(s));
  }

  lemma PeekPeeking(s: State, e: Choice)
    requires UserEnabled(s, e) && InPeek(s.user) && Inv(s)
    ensures var s' := PeekStep(s, e); Peeking(s'.c, s'.cache, s'.user, s'.h)
  {
    if s.user.Look? {
      hide Inv, Peeking, PeekStep;
      PeekLook(s, e);
    } else if s.user.Looked? {
      hide Inv, Peeking, PeekStep;
      if s.user.scanned + s.user.l > |s.cache| { PeekCopied(s, e); } else { PeekSkipped(s, e); }
    }
  }

  lemma NextNode(c: Chain, acked: seq<byte>, k: nat)
    requires Linked(c, acked) && c.read <= k < c.flush
    ensures c.nodes[k + 1].off == 0 && c.nodes[k + 1].base == c.nodes[k].base + c.nodes[k].len
  {
  }

  lemma PeekTrue(s: State, e: Choice)
    requires UserEnabled(s, e) && InPeek(s.user) && Inv(s)
    ensures True(PeekStep(s, e).h)
  {
    hide Linked, Writer, True, Collected, Local, Counted, Seen;
    PeekPeeking(s, e);
    var s', pos := PeekStep(s, e), Pos(s.c);
    if s'.user.Idle? {
      var n := s.user.n;
      CutCut(s.h.acked, pos, pos + |s'.cache|, 0, n);
      TrueMore(s.h, pos, s'.cache[..n]);
      TrueSame(s.h.(results := s.h.results + [(pos, s'.cache[..n])]), s'.h);
    } else {
      TrueSame(s.h, s'.h);
    }
  }

  lemma PeekInv(s: State, e: Choice)
    requires UserEnabled(s, e) && InPeek(s.user) && Inv(s)
    ensures Inv(PeekStep(s, e))
  {
    hide Linked, Writer, Counted, Reader, Local, Collected, Peeking, True, UserEnabled, PeekStep;
    PeekOther(s, e);
    PeekPeeking(s, e);
    PeekTrue(s, e);
  }

  // ---- Release

  predicate InRelease(u: User) { !InRead(u) && !InTake(u) && !InPeek(u) }

  lemma ReleaseLinked(s: State, e: Choice)
    requires UserEnabled(s, e) && InRelease(s.user) && Inv(s)
    ensures var s' := ReleaseStep(s, e); Linked(s'.c, s'.h.acked)
  {
    hide Linked, Counted, Reader, Collected, Peeking, True, NewNode;
    LinkedFacts(s.c, s.h.acked);
    var s' := ReleaseStep(s, e);
    if s.user.Link? { LinkedAdd(s.c, s.h.acked, []); }
    else if s.user.Follow? { LinkedHop(s.c, s.h.acked); }
    else { LinkedMove(s.c, s'.c, s.h.acked); }
  }

  lemma ReleaseWriter(s: State, e: Choice)
    requires UserEnabled(s, e) && InRelease(s.user) && Inv(s)
    ensures var s' := ReleaseStep(s, e); Writer(s'.c, s'.poller, s'.user)
  {
    hide Linked, Counted, Reader, Collected, Peeking, True, Local;
    LinkedFacts(s.c, s.h.acked);
  }

  lemma ReleaseCounted(s: State, e: Choice)
    requires UserEnabled(s, e) && InRelease(s.user) && Inv(s)
    ensures var s' := ReleaseStep(s, e); Counted(s'.c, s'.poller, s'.h)
  {
    hide Reader, Collected, Peeking, True, Local, Holds;
  }

  lemma ReleaseReader(s: State, e: Choice)
    requires UserEnabled(s, e) && InRelease(s.user) && Inv(s)
    ensures var s' := ReleaseStep(s, e); Reader(s'.c, s'.user, s'.h) && Collected(s'.user, s'.h) && True(s'.h)
  {
    hide Linked, Writer, Peeking, True;
    LinkedFacts(s.c, s.h.acked);
    if s.user.Follow? { LinkedHop(s.c, s.h.acked); }
  }

  lemma ReleaseLocal(s: State, e: Choice)
    requires UserEnabled(s, e) && InRelease(s.user) && Inv(s)
    ensures var s' := ReleaseStep(s, e); Local(s'.c, s'.user, s'.c.length)
  {
    hide Linked, Writer, True, Collected, Counted, Peeking, Reader;
    LinkedFacts(s.c, s.h.acked);
  }

  lemma ReleasePeeking(s: State, e: Choice)
    requires UserEnabled(s, e) && InRelease(s.user) && Inv(s)
    ensures var s' := ReleaseStep(s, e); Peeking(s'.c, s'.cache, s'.user, s'.h)
  {
    hide Linked, Writer, True, Collected, Counted, Reader, Seen, Holds, Peeking;
    LinkedFacts(s.c, s.h.acked);
    if s.user.Follow? { LinkedHop(s.c, s.h.acked); }
    var s' := ReleaseStep(s, e);
    assert s'.c.read < |s'.c.nodes| && Pos(s'.c) == Pos(s.c);
    PeekingSame(s.c, s'.c, s.cache, s'.cache, s.user, s'.user, s.h, s'.h);
  }

  lemma ReleaseInv(s: State, e: Choice)
    requires UserEnabled(s, e) && InRelease(s.user) && Inv(s)
    ensures Inv(ReleaseStep(s, e))
  {
    hide Linked, Writer, Counted, Reader, Local, Collected, Peeking, True, UserEnabled, ReleaseStep;
    ReleaseLinked(s, e);
    ReleaseWriter(s, e);
    ReleaseCounted(s, e);
    ReleaseReader(s, e);
    ReleaseLocal(s, e);
    ReleasePeeking(s, e);
  }

  // ---------------------------------------------------------------- runs

  lemma StepsInv(s: State, s': State)
    requires Inv(s) && Steps(s, s')
    ensures Inv(s')
  {
    hide Inv, PollerEnabled, PollerStep, UserEnabled, ReadStep, TakeStep, PeekStep, ReleaseStep;
    if e: Choice :| PollerEnabled(s, e) && s' == PollerStep(s, e) {
      PollerInv(s, e);
    } else {
      var e: Choice :| UserEnabled(s, e) && s' == UserStep(s, e);
      if InRead(s.user) { ReadInv(s, e); }
      else if InTake(s.user) { TakeInv(s, e); }
      else if InPeek(s.user) { PeekInv(s, e); }
      else { ReleaseInv(s, e); }
    }
  }

  lemma {:induction false} RunInv(run: seq<State>, k: nat)
    requires IsRun(run) && k < |run|
    ensures Inv(run[k])
    decreases k
  {
    hide Inv, Init, Steps;
    if k == 0 {
      InitInv(run[0]);
    } else {
      RunInv(run, k - 1);
      assert Steps(run[k - 1], run[(k - 1) + 1]);
      StepsInv(run[k - 1], run[k]);
    }
  }

  lemma ReachableInv(s: State)
    requires Reachable(s)
    ensures Inv(s)
  {
    hide Inv, Init, Steps;
    var run: seq<State> :| IsRun(run) && s == run[|run| - 1];
    RunInv(run, |run| - 1);
  }

  // ---------------------------------------------------------------- theorems

  /** The four pointers never cross; so no node is freed that the reader or the writer still has. */
  lemma PointersInOrder(s: State)
    requires Reachable(s)
    ensures s.c.head <= s.c.read <= s.c.flush <= s.c.write < |s.c.nodes|
  {
    hide Reachable;
    ReachableInv(s);
  }

  /** The bytes in the nodes from `i` to `j`. */
  function Present(nodes: seq<Node>, i: nat, j: nat): int
    requires j < |nodes|
    decreases j - i
  {
    if i > j then 0 else Len(nodes[i]) + Present(nodes, i + 1, j)
  }

  lemma {:induction false} PresentIs(c: Chain, acked: seq<byte>, i: nat)
    requires Linked(c, acked) && c.read <= i <= c.flush
    ensures Present(c.nodes, i, c.flush) == c.nodes[c.flush].base + c.nodes[c.flush].len - c.nodes[i].base - c.nodes[i].off
    decreases c.flush - i
  {
    if i < c.flush { PresentIs(c, acked, i + 1); } else { assert Present(c.nodes, i + 1, c.flush) == 0; }
  }

  /** `length`, and what the user has claimed but not passed yet, lie between the read and the flush node. */
  lemma LengthIsThere(s: State)
    requires Reachable(s)
    ensures s.c.read <= s.c.flush < |s.c.nodes| && 0 <= s.c.length
    ensures s.c.length + Owed(s.user) <= Present(s.c.nodes, s.c.read, s.c.flush)
  {
    hide Reachable;
    ReachableInv(s);
    PresentIs(s.c, s.h.acked, s.c.read);
  }

  /** What was read is what was acked, in order and without loss: the bytes passed are a prefix of the
      acked ones, all of the promised ones between operations, and every Next and Peek returned the
      stretch it should. */
  lemma ReadsAreAcked(s: State)
    requires Reachable(s)
    ensures s.h.consumed <= s.h.acked && |s.h.consumed| + Owed(s.user) == s.h.promised <= s.h.published <= |s.h.acked|
    ensures s.user.Idle? ==> s.h.consumed == s.h.acked[..s.h.promised] && s.c.length == s.h.published - |s.h.consumed|
    ensures forall i :: 0 <= i < |s.h.results| ==>
              var (at, t) := s.h.results[i]; at + |t| <= |s.h.acked| && t == s.h.acked[at..at + |t|]
  {
    hide Reachable;
    ReachableInv(s);
    hide Linked, Writer, Local, Collected, Peeking;
  }

  /** The peek cache is a prefix of the readable bytes. */
  lemma CacheIsPrefix(s: State)
    requires Reachable(s)
    ensures |s.h.consumed| + |s.cache| <= s.h.published <= |s.h.acked|
    ensures s.cache == s.h.acked[|s.h.consumed|..|s.h.consumed| + |s.cache|]
  {
    hide Reachable;
    ReachableInv(s);
    hide Linked, Writer, Local, Collected, True;
  }

  /** resetTail never meets a booking. */
  lemma ResetExcludesBooking(s: State)
    requires Reachable(s)
    ensures !(InBook(s.poller) && InReset(s.user))
  {
    hide Reachable;
    ReachableInv(s);
    hide Linked, Counted, Reader, Local, Collected, Peeking, True;
  }

  /** The user can always take its next step: it never leaves the chain, and never reads beyond an array. */
  lemma ReaderNeverStuck(s: State, e: Choice)
    requires Reachable(s)
    ensures UserEnabled(s, e)
  {
    hide Reachable;
    ReachableInv(s);
    LinkedFacts(s.c, s.h.acked);
    assert Holds(s.c.nodes[s.c.read], s.h.acked);
    if s.user.Look? || s.user.Looked? { assert Holds(s.c.nodes[s.user.k], s.h.acked); }
    hide Linked, Writer, Counted, Collected, True;
  }

  /** What the kernel fills lies behind everything readable, inside the array. */
  lemma BookedIsFree(s: State)
    requires Reachable(s) && s.poller.Reading?
    ensures s.c.write < |s.c.nodes|
    ensures var nd := s.c.nodes[s.c.write]; nd.malloc - s.poller.size == nd.len && nd.malloc <= |nd.text|
  {
    hide Reachable;
    ReachableInv(s);
    hide Linked, Counted, Reader, Local, Collected, Peeking, True;
  }

  /** A Next that completes returns the `n` bytes it consumed, which are the last of the promised ones. */
  lemma NextReturns(s: State, e: Choice)
    requires Reachable(s) && (s.user.TakeOne? || s.user.Walked?) && s.user.op.Next? && UserEnabled(s, e) && UserStep(s, e).user.Idle?
    ensures var s', n := UserStep(s, e), s.user.n;
            && |s'.h.results| == |s.h.results| + 1 && n <= s'.h.promised == |s'.h.consumed| <= |s'.h.acked|
            && s'.h.results[|s.h.results|].1 == s'.h.consumed[s'.h.promised - n..]
            && s'.h.consumed == s'.h.acked[..s'.h.promised]
  {
    hide Reachable, Inv, UserEnabled, TakeStep, ReadStep, PeekStep, ReleaseStep;
    ReachableInv(s);
    TakeInv(s, e);
    NewResult(s, e);
    AtRest(UserStep(s, e));
    var h', n := UserStep(s, e).h, s.user.n;
    CutCut(h'.acked, 0, h'.promised, h'.promised - n, h'.promised);
  }

  lemma AtRest(s: State)
    requires Inv(s) && s.user.Idle?
    ensures |s.h.consumed| == s.h.promised <= |s.h.acked| && s.h.consumed == s.h.acked[..s.h.promised]
  {
    hide Linked, Writer, Local, Peeking, True, Collected;
  }

  lemma NewResult(s: State, e: Choice)
    requires Inv(s) && (s.user.TakeOne? || s.user.Walked?) && s.user.op.Next? && UserEnabled(s, e) && TakeStep(s, e).user.Idle?
    ensures var h' := TakeStep(s, e).h;
            |h'.results| == |s.h.results| + 1 && s.user.n <= s.h.promised <= |s.h.acked| && h'.acked == s.h.acked && h'.promised == s.h.promised
    ensures TakeStep(s, e).h.results[|s.h.results|].1 == s.h.acked[s.h.promised - s.user.n..s.h.promised]
  {
    hide Linked, Writer, Peeking, True, Seen, Bytes;
    TakePos(s, e);
    if s.user.Walked? { JoinParts(s.h.acked, s.h.promised - s.user.n, Pos(s.c), Pos(s.c) + Moved(s)); }
  }
}
