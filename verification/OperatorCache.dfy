/** The operator cache as the source writes it: operators linked into a free chain through `next`, an
    array of all operators, and a list of indices that wait for the end of an event batch.  Its
    methods do to the two lists what the steps of Operators do. */
module OperatorCache {
  import opened Operators

  class FDOperator {
    const index: nat
    var next: FDOperator?
    var state: nat
    var cleared: bool

    constructor (index: nat)
      ensures this.index == index && next == null && state == 0 && cleared
    {
      this.index := index;
      next := null;
      state := 0;
      cleared := true;
    }

    /** unused(): from 1 to 0, or 0 already; it waits while the state is 2. */
    method Unused()
      requires state <= 1
      modifies this`state
      ensures state == 0
    {
      if state == 1 { state := 0; }
    }

    /** reset(): every field a former owner set is cleared. */
    method Reset()
      modifies this`cleared
      ensures cleared
    {
      cleared := true;
    }
  }

  class Cache {
    const batch: nat
    var first: FDOperator?
    var cache: seq<FDOperator>
    var freelist: seq<nat>
    ghost var chain: seq<nat>

    ghost function Link(k: nat): FDOperator?
      reads this`cache, this`chain
    {
      if k < |chain| && chain[k] < |cache| then cache[chain[k]] else null
    }

    /** The chain of `next` pointers visits the operators of `chain`. */
    ghost predicate Linked()
      reads this`first, this`cache, this`chain, cache
    {
      && first == Link(0)
      && forall k :: 0 <= k < |chain| && chain[k] < |cache| ==> cache[chain[k]].next == Link(k + 1)
    }

    ghost predicate Valid()
      reads this, cache
    {
      && 0 < batch
      && (forall i :: 0 <= i < |cache| ==> cache[i].index == i)
      && NoDup(chain) && (forall k :: 0 <= k < |chain| ==> chain[k] < |cache|)
      && NoDup(freelist) && (forall k :: 0 <= k < |freelist| ==> freelist[k] < |cache| && freelist[k] !in chain)
      && Linked()
    }

    constructor (opSize: nat)
      requires 0 < opSize
      ensures Valid() && chain == [] && cache == [] && freelist == []
    {
      batch := if 4096 / opSize == 0 then 1 else 4096 / opSize;
      first, cache, freelist, chain := null, [], [], [];
    }

    /** pd.next = c.first; c.first = pd */
    method Push(op: FDOperator)
      requires Linked() && op.index < |cache| && cache[op.index] == op && op.index !in chain
      requires forall i :: 0 <= i < |cache| ==> cache[i].index == i
      requires forall k :: 0 <= k < |chain| ==> chain[k] < |cache|
      modifies this`first, this`chain, op`next
      ensures Linked() && chain == [op.index] + old(chain)
    {
      op.next := first;
      first := op;
      ghost var was := chain;
      chain := [op.index] + chain;
      forall k | 0 <= k < |chain| ensures cache[chain[k]].next == Link(k + 1) {
        if k > 0 { assert chain[k] == was[k - 1] && was[k - 1] in was && cache[was[k - 1]].index == was[k - 1]; }
      }
    }

    /** The filling loop of alloc. */
    method Fill()
      requires Valid() && chain == []
      modifies this`first, this`cache, this`chain
      ensures Valid() && |cache| == |old(cache)| + batch && cache[..|old(cache)|] == old(cache)
      ensures chain == Downward(|old(cache)|, batch)
      ensures forall i :: |old(cache)| <= i < |cache| ==> fresh(cache[i])
    {
      hide Valid, Downward;
      ghost var base := |cache|;
      DownwardNone(base);
      var i: nat := 0;
      while i < batch
        invariant i <= batch && Valid() && |cache| == base + i && cache[..base] == old(cache)
        invariant chain == Downward(base, i)
        invariant forall j :: base <= j < |cache| ==> fresh(cache[j])
      {
        var pd := new FDOperator(|cache|);
        Extend(pd);
        DownwardMore(base, i);
        i := i + 1;
      }
    }

    /** c.cache = append(c.cache, pd), and pd goes to the head of the chain. */
    method Extend(pd: FDOperator)
      requires Valid() && pd.index == |cache| && pd !in cache
      modifies this`first, this`cache, this`chain, pd`next
      ensures Valid() && cache == old(cache) + [pd] && chain == [pd.index] + old(chain)
    {
      cache := cache + [pd];
      assert Linked();
      Push(pd);
      PushedOnce(old(chain), pd.index);
    }

    /** op = c.first; c.first = op.next */
    method Pop() returns (op: FDOperator)
      requires Valid() && chain != []
      modifies this`first, this`chain
      ensures Valid() && chain == old(chain)[1..] && op.index == old(chain)[0]
      ensures op.index < |cache| && cache[op.index] == op && op.index !in chain && op.index !in freelist
    {
      op := first;
      first := op.next;
      ghost var filled := chain;
      chain := chain[1..];
      forall k | 0 <= k < |chain| ensures chain[k] == filled[k + 1] {}
      PoppedOnce(filled);
      hide NoDup;
      forall k | 0 <= k < |freelist| ensures freelist[k] !in chain && freelist[k] != op.index { assert freelist[k] !in filled; }
    }

    /** alloc: an operator that was neither free-listed nor with an owner. */
    method Alloc() returns (op: FDOperator)
      requires Valid()
      modifies this`first, this`cache, this`chain
      ensures Valid() && freelist == old(freelist) && |old(cache)| <= |cache| && cache[..|old(cache)|] == old(cache)
      ensures var filled := if old(chain) == [] then Downward(|old(cache)|, batch) else old(chain);
              && filled != [] && chain == filled[1..] && op.index == filled[0]
      ensures op.index < |cache| && cache[op.index] == op && op.index !in chain && op.index !in freelist
    {
      EmptyChain();
      hide Valid;
      if first == null {
        Fill();
        DownwardSome(|old(cache)|, batch);
      }
      hide Downward;
      op := Pop();
    }

    lemma EmptyChain()
      requires Valid()
      ensures 0 < batch && (first == null <==> chain == [])
    {
    }

    /** freeable: the operator is reset and waits for the end of the batch. */
    method Freeable(op: FDOperator)
      requires Valid() && op.state <= 1
      requires op.index < |cache| && cache[op.index] == op && op.index !in chain && op.index !in freelist
      modifies this`freelist, op`state, op`cleared
      ensures Valid() && chain == old(chain) && freelist == old(freelist) + [op.index] && op.state == 0 && op.cleared
    {
      op.Unused();
      op.Reset();
      freelist := freelist + [op.index];
    }

    /** `k` entries of the freelist were pushed. */
    ghost predicate Moving(k: nat, was: seq<nat>)
      reads this, cache
    {
      && k <= |freelist| && 0 < batch && Linked() && NoDup(chain) && chain == Reversed(freelist[..k]) + was
      && (forall i :: 0 <= i < |cache| ==> cache[i].index == i)
      && (forall j :: 0 <= j < |chain| ==> chain[j] < |cache|)
      && NoDup(freelist) && (forall j :: k <= j < |freelist| ==> freelist[j] < |cache| && freelist[j] !in chain)
    }

    /** op.next = c.first; c.first = op, for the next entry of the freelist. */
    method MoveOne(k: nat, ghost was: seq<nat>)
      requires k < |freelist| && Moving(k, was)
      modifies this`first, this`chain, cache`next
      ensures Moving(k + 1, was)
    {
      hide Reversed;
      var op := cache[freelist[k]];
      ReversedMore(freelist, k, was);
      PushedOnce(chain, op.index);
      Push(op);
    }

    lemma MovingStart()
      requires Valid()
      ensures Moving(0, chain)
    {
      hide Reversed, NoDup, Linked;
      ReversedNone(freelist, chain);
    }

    lemma MovingDone(was: seq<nat>)
      requires Moving(|freelist|, was)
      ensures chain == Reversed(freelist) + was && 0 < batch && Linked() && NoDup(chain)
      ensures forall i :: 0 <= i < |cache| ==> cache[i].index == i
      ensures forall j :: 0 <= j < |chain| ==> chain[j] < |cache|
    {
      assert freelist[..|freelist|] == freelist;
    }

    /** free: everything on the freelist goes back to the chain, the last one first. */
    method Free()
      requires Valid()
      modifies this`first, this`chain, this`freelist, cache`next
      ensures Valid() && freelist == [] && chain == Reversed(old(freelist)) + old(chain)
    {
      hide Moving, Linked, Reversed;
      ghost var was := chain;
      var k: nat := 0;
      MovingStart();
      while k < |freelist|
        invariant k <= |freelist| && Moving(k, was)
        modifies this`first, this`chain, cache`next
      {
        MoveOne(k, was);
        k := k + 1;
      }
      MovingDone(was);
      freelist := [];
    }
  }

  lemma ReversedNone(s: seq<nat>, rest: seq<nat>)
    ensures Reversed(s[..0]) + rest == rest
  {
  }

  lemma PoppedOnce(s: seq<nat>)
    requires NoDup(s) && s != []
    ensures NoDup(s[1..]) && s[0] !in s[1..]
  {
  }

  lemma DownwardSome(from: nat, n: nat)
    requires 0 < n
    ensures Downward(from, n) != []
  {
  }

  lemma DownwardNone(from: nat)
    ensures Downward(from, 0) == []
  {
  }

  lemma DownwardMore(from: nat, n: nat)
    ensures [from + n] + Downward(from, n) == Downward(from, n + 1)
  {
  }

  lemma ReversedMore(s: seq<nat>, k: nat, rest: seq<nat>)
    requires k < |s|
    ensures [s[k]] + (Reversed(s[..k]) + rest) == Reversed(s[..k + 1]) + rest
  {
  }

  lemma PushedOnce(s: seq<nat>, x: nat)
    requires NoDup(s) && x !in s
    ensures NoDup([x] + s)
  {
  }
}
