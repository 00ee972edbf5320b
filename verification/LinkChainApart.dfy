/** Memory separation: what Malloc hands out overlaps nothing that is readable, pending, or read
    but not released. */
module LinkChainApart {
  import opened LinkChain
  import opened LinkChainWriter

  /** Every used byte of every node that shares the array lies below what is handed out. */
  lemma HandedApart(vs: seq<View>, w: nat, n: nat)
    requires Apart(vs, w) && w < |vs| && !vs[w].readonly && Open(vs[w])
    ensures forall k :: 0 <= k < |vs| && vs[k].buf.block == Handed(vs[w], n).block ==> End(vs[k]) <= Handed(vs[w], n).lo
  {
    forall k | 0 <= k < |vs| && vs[k].buf.block == Handed(vs[w], n).block
      ensures End(vs[k]) <= Handed(vs[w], n).lo
    {
      assert SameArray(vs[w], vs[k]);
    }
  }

  lemma ApartMalloc(vs: seq<View>, w: nat, n: nat)
    requires Apart(vs, w) && w < |vs| && !vs[w].readonly
    ensures Apart(vs[w := vs[w].(malloc := vs[w].malloc + n)], w)
  {
    var vs' := vs[w := vs[w].(malloc := vs[w].malloc + n)];
    forall i, j | w <= i < |vs| && 0 <= j < |vs| && i != j && SameArray(vs'[i], vs'[j])
      ensures End(vs'[j]) <= vs'[i].buf.lo + vs'[i].malloc && (w <= j ==> vs'[j].readonly)
    {
      assert SameArray(vs[i], vs[j]);
    }
  }

  lemma OwnMalloc(vs: seq<View>, f: nat, w: nat, n: nat)
    requires Own(vs, f) && f <= w < |vs| && !vs[w].readonly
    ensures Own(vs[w := vs[w].(malloc := vs[w].malloc + n)], f)
  {
    var vs' := vs[w := vs[w].(malloc := vs[w].malloc + n)];
    forall i, j | f <= i < |vs| && 0 <= j < |vs| && i != j && SameArray(vs'[i], vs'[j])
      ensures End(vs'[j]) <= vs'[i].buf.lo + vs'[i].buf.len && (f <= j ==> vs'[j].readonly)
    {
      assert SameArray(vs[i], vs[j]);
    }
  }

  /** Flushing turns the one separation into the other. */
  lemma OwnFlushed(vs: seq<View>, f: nat, w: nat)
    requires Apart(vs, w) && OpenFrom(vs, f) && f <= w < |vs| && BlankFrom(vs, w + 1)
    ensures Own(SealedFrom(vs, f, w + 1), w)
  {
    var vs' := SealedFrom(vs, f, w + 1);
    forall i, j | w <= i < |vs| && 0 <= j < |vs| && i != j && SameArray(vs'[i], vs'[j])
      ensures End(vs'[j]) <= vs'[i].buf.lo + vs'[i].buf.len && (w <= j ==> vs'[j].readonly)
    {
      assert SameArray(vs[i], vs[j]);
    }
  }

  lemma OwnApart(vs: seq<View>, f: nat, w: nat)
    requires Own(vs, f) && OpenFrom(vs, f) && f <= w
    ensures Apart(vs, w)
  {
    hide End;
  }

  lemma OwnAcked(vs: seq<View>, vs': seq<View>, f: nat)
    requires Own(vs, f) && |vs'| == |vs|
    requires forall k :: 0 <= k < |vs| ==> vs'[k].buf.block == vs[k].buf.block && vs'[k].readonly == vs[k].readonly
    requires forall k :: 0 <= k < |vs| ==>
               End(vs'[k]) <= End(vs[k]) && vs[k].buf.lo + vs[k].buf.len <= vs'[k].buf.lo + vs'[k].buf.len
    ensures Own(vs', f)
  {
    hide End;
    forall i, j | f <= i < |vs| && 0 <= j < |vs| && i != j && SameArray(vs'[i], vs'[j])
      ensures End(vs'[j]) <= vs'[i].buf.lo + vs'[i].buf.len && (f <= j ==> vs'[j].readonly)
    {
      assert SameArray(vs[i], vs[j]);
    }
  }

  /** A chain cut behind its write node and continued: only what follows may hand out memory. */
  lemma ApartContinued(vs: seq<View>, w: nat, ws: seq<View>, z: nat)
    requires w < |vs| && z < |ws| && Apart(ws, z)
    requires forall i, j :: 0 <= i <= w && z <= j < |ws| ==> !SameArray(ws[j], vs[i])
    ensures Apart(Continued(vs, w, ws), w + 1 + z)
  {
    hide End;
    var vs' := Continued(vs, w, ws);
    forall i, j | w + 1 + z <= i < |vs'| && 0 <= j < |vs'| && i != j
      ensures SameArray(vs'[i], vs'[j]) ==> End(vs'[j]) <= vs'[i].buf.lo + vs'[i].malloc && (w + 1 + z <= j ==> vs'[j].readonly)
    {
      assert vs'[i] == ws[i - w - 1] && vs'[j] == if j <= w then vs[j] else ws[j - w - 1];
    }
  }

  // ---------------------------------------------------------------- splices

  /** No other node uses the array of `vs[k]`. */
  ghost predicate Alone(vs: seq<View>, k: nat)
    requires k < |vs|
  {
    forall j :: 0 <= j < |vs| && j != k ==> vs[j].buf.block != vs[k].buf.block
  }

  /** A splice keeps the last node's spare memory to itself, unless it splits a read-only last
      node whose array is used elsewhere too. */
  lemma ApartInserted(vs: seq<View>, w: nat, k: nat, at: nat, x: View, split: bool)
    requires w < |vs| && Apart(vs, w) && k < |vs| && Open(vs[k]) && at <= vs[k].malloc - vs[k].buf.len
    requires Wrapped(x) && forall j :: 0 <= j < |vs| ==> vs[j].buf.block != x.buf.block
    requires split && k + 1 == |vs| && vs[k].readonly ==> Alone(vs, k)
    ensures var vs' := vs[..k] + Insert(vs[k], at, x, split) + vs[k + 1..]; Apart(vs', |vs'| - 1)
  {
    var ins, back := Insert(vs[k], at, x, split), vs[k + 1..];
    var vs', last := vs[..k] + ins + back, |vs| - 1;
    var i := |vs'| - 1;
    InsertEnds(vs[k], at, x, split);
    forall j | 0 <= j < i && SameArray(vs'[i], vs'[j])
      ensures End(vs'[j]) <= vs'[i].buf.lo + vs'[i].malloc
    {
      hide End, Apart, Insert;
      var j0 := if j < k then j else if j < k + |ins| then k else j - |ins| + 1;
      assert j < k ==> vs'[j] == vs[j];
      assert k <= j < k + |ins| ==> vs'[j] == ins[j - k];
      assert k + |ins| <= j ==> vs'[j] == vs[j0];
      assert k < last ==> vs'[i] == vs[last];
      assert k == last ==> vs'[i] == ins[|ins| - 1];
      InsertedBelow(vs, w, k, x, ins, vs'[i], vs'[j], j0, split);
    }
  }

  /** The pieces of a split node end where it ended; only the last piece may hand out memory. */
  lemma InsertEnds(v: View, at: nat, x: View, split: bool)
    requires Wrapped(x) && Open(v) && at <= v.malloc - v.buf.len
    ensures var ins := Insert(v, at, x, split);
            && 2 <= |ins| && ins[1] == x
            && (forall i :: 0 <= i < |ins| && i != 1 ==> ins[i].buf.block == v.buf.block && End(ins[i]) <= End(v))
            && (split ==> |ins| == 3 && ins[2].buf.lo + ins[2].malloc == End(v))
            && (!split ==> |ins| == 2)
  {
  }

  lemma InsertedBelow(vs: seq<View>, w: nat, k: nat, x: View, ins: seq<View>, v: View, u: View, j: nat, split: bool)
    requires w < |vs| && Apart(vs, w) && k < |vs| && j < |vs| && Wrapped(x) && SameArray(v, u)
    requires forall i :: 0 <= i < |vs| ==> vs[i].buf.block != x.buf.block
    requires split && k + 1 == |vs| && vs[k].readonly ==> Alone(vs, k)
    requires 2 <= |ins| && ins[1] == x
    requires forall i :: 0 <= i < |ins| && i != 1 ==> ins[i].buf.block == vs[k].buf.block && End(ins[i]) <= End(vs[k])
    requires if split then |ins| == 3 && ins[2].buf.lo + ins[2].malloc == End(vs[k]) else |ins| == 2
    requires v == if k + 1 < |vs| then vs[|vs| - 1] else ins[|ins| - 1]
    requires if j == k then u in ins else u == vs[j]
    requires Open(vs[k]) && (k + 1 < |vs| ==> j + 1 != |vs|)
    ensures End(u) <= v.buf.lo + v.malloc
  {
    assert End(vs[k]) == vs[k].buf.lo + vs[k].malloc;
    hide End;
    var last := |vs| - 1;
    assert j == k ==> u == x || (u.buf.block == vs[k].buf.block && End(u) <= End(vs[k]));
    if k < last {
      assert SameArray(vs[last], vs[j]);
    } else {
      assert j != k && !vs[k].readonly ==> SameArray(vs[k], vs[j]);
    }
  }

  // ---------------------------------------------------------------- stores

  /** The memory after `t` was copied to `s`. */
  function Stored(m: Blocks, s: Slice, t: seq<byte>): Blocks
    requires InMemory(m, s) && |t| == s.len
  {
    var a := m[s.block];
    m[s.block := a[..s.lo] + t + a[s.lo + s.len..]]
  }

  /** A node that ends before the stored range, or lies in another array, keeps its bytes. */
  lemma StoreOutside(m: Blocks, s: Slice, t: seq<byte>, v: View)
    requires InMemory(m, s) && |t| == s.len && Fits(m, v) && (v.buf.block == s.block ==> End(v) <= s.lo)
    ensures Fits(Stored(m, s, t), v) && Ready(Stored(m, s, t), v) == Ready(m, v)
    ensures Open(v) ==> Waiting(Stored(m, s, t), v) == Waiting(m, v)
  {
    var a, a' := m[s.block], Stored(m, s, t)[s.block];
    assert forall k :: 0 <= k < s.lo ==> a'[k] == a[k];
  }

  lemma StoreInside(m: Blocks, s: Slice, t: seq<byte>)
    requires InMemory(m, s) && |t| == s.len
    ensures InMemory(Stored(m, s, t), s) && Text(Stored(m, s, t), s) == t
  {
  }
}
