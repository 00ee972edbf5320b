/** Announcements and the ring, when no Add is empty: every non-empty shard is announced once, so the ring
    is never overrun and every getter is called exactly once. */
module ShardQueueRing {
  import opened ShardQueue
  import opened ShardQueueSafety

  ghost predicate TokensOwned(tokens: seq<Token>, threads: map<nat, Pc>)
  {
    && (forall i :: i in threads && Carries(threads[i]) ==>
        threads[i].shard < |tokens| && tokens[threads[i].shard] == Held(i))
    && (forall sh :: 0 <= sh < |tokens| && tokens[sh].Held? ==>
        tokens[sh].tid in threads && Carries(threads[tokens[sh].tid]) && threads[tokens[sh].tid].shard == sh)
  }

  /** Every non-empty shard is announced exactly once, by the thread that found it empty,
      by an unread ring entry, or by the task that is about to swap it. */
  ghost predicate Announced(getters: seq<Slice>, tokens: seq<Token>, written: seq<nat>, taken: nat)
  {
    && |getters| == |tokens| && taken <= |written|
    && (forall k :: taken <= k < |written| ==> written[k] < |tokens| && tokens[written[k]] == Queued(k))
    && (forall sh :: 0 <= sh < |tokens| ==> (tokens[sh] == Idle <==> getters[sh].len == 0))
    && (forall sh :: 0 <= sh < |tokens| && tokens[sh].Queued? ==>
        taken <= tokens[sh].pos < |written| && written[tokens[sh].pos] == sh)
  }

  /** The unread part of the ring holds the announcements in the order they were put. */
  ghost predicate RingHolds(g: Ring, size: nat, putting: bool, reading: bool)
    requires 0 < size && ShapedRing(g, size)
  {
    && g.taken <= |g.written|
    && (forall k :: g.taken <= k < |g.written| ==> g.list[Slot(k + 1, size)] == g.written[k])
    && g.w == Slot(|g.written| + if putting then 1 else 0, size)
    && g.r == Slot(g.taken + if reading then 1 else 0, size)
  }

  /** Every goroutine in Add has something to add. */
  ghost predicate NonEmpty(threads: map<nat, Pc>)
  {
    forall i :: i in threads && HasGetters(threads[i]) ==> threads[i].gts != []
  }

  /** And what is kept besides when no Add is empty: announcements are unique, and the ring holds them. */
  ghost predicate AnnounceInv(s: State)
    requires Shaped(s)
  {
    && TokensOwned(s.own.tokens, s.threads) && NonEmpty(s.threads)
    && Announced(s.mem.getters, s.own.tokens, s.ring.written, s.ring.taken)
    && RingHolds(s.ring, s.size, ListPc(s).PutList?, RunnerPc(s).ReadRing?)
  }

  /** The same for the announcement of a shard: kept, taken up, or handed over. */
  predicate TokenMove(tokens: seq<Token>, tokens': seq<Token>, i: nat, pc: Pc, pc': Pc)
  {
    || (tokens' == tokens && Carries(pc) == Carries(pc') && (Carries(pc) ==> pc.shard == pc'.shard))
    || (!Carries(pc) && Carries(pc') && pc'.shard < |tokens| && !tokens[pc'.shard].Held?
        && tokens' == tokens[pc'.shard := Held(i)])
    || (Carries(pc) && !Carries(pc') && pc.shard < |tokens| == |tokens'| && !tokens'[pc.shard].Held?
        && tokens' == tokens[pc.shard := tokens'[pc.shard]])
  }

  lemma TokensKept(tokens: seq<Token>, tokens': seq<Token>, threads: map<nat, Pc>, i: nat, pc': Pc)
    requires TokensOwned(tokens, threads) && i in threads && TokenMove(tokens, tokens', i, threads[i], pc')
    ensures TokensOwned(tokens', threads[i := pc'])
  {
  }

  // ---------------------------------------------------------------- announcements

  lemma AnnounceAppend(getters: seq<Slice>, tokens: seq<Token>, written: seq<nat>, taken: nat, sh: nat, sl: Slice, i: nat)
    requires Announced(getters, tokens, written, taken) && sh < |getters| && getters[sh].len < sl.len
    ensures Announced(getters[sh := sl], if getters[sh].len == 0 then tokens[sh := Held(i)] else tokens, written, taken)
  {
  }

  lemma AnnouncePut(getters: seq<Slice>, tokens: seq<Token>, written: seq<nat>, taken: nat, sh: nat)
    requires Announced(getters, tokens, written, taken) && sh < |tokens| && tokens[sh].Held?
    ensures Announced(getters, tokens[sh := Queued(|written|)], written + [sh], taken)
  {
  }

  lemma AnnounceTake(getters: seq<Slice>, tokens: seq<Token>, written: seq<nat>, taken: nat, i: nat)
    requires Announced(getters, tokens, written, taken) && taken < |written|
    ensures Announced(getters, tokens[written[taken] := Held(i)], written, taken + 1)
  {
  }

  lemma AnnounceSettle(getters: seq<Slice>, tokens: seq<Token>, written: seq<nat>, taken: nat, sh: nat, arr: nat)
    requires Announced(getters, tokens, written, taken) && sh < |tokens| && tokens[sh].Held?
    ensures Announced(getters[sh := Slice(arr, 0)], tokens[sh := Idle], written, taken)
  {
  }

  /** Distinct numbers below `n` are at most `n` many. */
  lemma {:induction false} Pigeonhole(q: seq<nat>, n: nat)
    requires forall k :: 0 <= k < |q| ==> q[k] < n
    requires forall j, k :: 0 <= j < k < |q| ==> q[j] != q[k]
    ensures |q| <= n
  {
    if |q| > 0 {
      assert q[0] < n;
      if n - 1 in q {
        var p :| 0 <= p < |q| && q[p] == n - 1;
        Pigeonhole(q[..p] + q[p + 1..], n - 1);
      } else {
        Pigeonhole(q, n - 1);
      }
    }
  }

  /** While a thread holds an announcement, some ring slot is free for it. */
  lemma RoomInRing(getters: seq<Slice>, tokens: seq<Token>, written: seq<nat>, taken: nat, sh: nat)
    requires Announced(getters, tokens, written, taken) && sh < |tokens| && tokens[sh].Held?
    ensures |written| - taken < |tokens|
  {
    var q := written[taken..] + [sh];
    forall j, k | 0 <= j < k < |q|
      ensures q[j] != q[k]
    {
      if k < |q| - 1 {
        assert tokens[written[taken + j]] == Queued(taken + j) && tokens[written[taken + k]] == Queued(taken + k);
      } else {
        assert tokens[written[taken + j]] == Queued(taken + j);
      }
    }
    Pigeonhole(q, |tokens|);
  }

  // ---------------------------------------------------------------- the ring

  lemma RemainderStep(k: nat, size: nat)
    requires 0 < size <= k
    ensures k % size == (k - size) % size
  {
    var d := k / size - (k - size) / size - 1;
    assert size * d == (k - size) % size - k % size;
    assert d >= 1 ==> size * d >= size;
    assert d <= -1 ==> size * d <= 0 - size;
    assert d == 0;
  }

  /** Slot is the remainder the source computes. */
  lemma {:induction false} SlotIsRemainder(k: nat, size: nat)
    requires 0 < size
    ensures Slot(k, size) == k % size
    decreases k
  {
    if k >= size {
      SlotIsRemainder(k - size, size);
      RemainderStep(k, size);
    }
  }

  lemma {:induction false} SlotNext(k: nat, size: nat)
    requires 0 < size
    ensures Slot(k + 1, size) == (if Slot(k, size) + 1 == size then 0 else Slot(k, size) + 1)
    ensures Slot(Slot(k, size) + 1, size) == Slot(k + 1, size)
    decreases k
  {
    if k >= size { SlotNext(k - size, size); }
  }

  /** Within one turn of the ring, different positions use different slots. */
  lemma {:induction false} SlotsDiffer(j: nat, k: nat, size: nat)
    requires j < k < j + size
    ensures Slot(j, size) != Slot(k, size)
    decreases k
  {
    if j >= size { SlotsDiffer(j - size, k - size, size); }
  }

  lemma RingMoveW(g: Ring, size: nat, reading: bool)
    requires 0 < size && ShapedRing(g, size) && RingHolds(g, size, false, reading)
    ensures var g' := g.(w := Slot(g.w + 1, size)); ShapedRing(g', size) && RingHolds(g', size, true, reading)
  {
    SlotNext(|g.written|, size);
  }

  lemma RingPut(g: Ring, size: nat, sh: nat, reading: bool)
    requires 0 < size && ShapedRing(g, size) && RingHolds(g, size, true, reading)
    requires sh < size && |g.written| - g.taken < size
    ensures var g' := g.(list := g.list[g.w := sh], written := g.written + [sh]);
            ShapedRing(g', size) && RingHolds(g', size, false, reading)
  {
    forall k | g.taken < k <= |g.written|
      ensures Slot(k, size) != g.w
    {
      SlotsDiffer(k, |g.written| + 1, size);
    }
  }

  lemma RingMoveR(g: Ring, size: nat, putting: bool)
    requires 0 < size && ShapedRing(g, size) && RingHolds(g, size, putting, false)
    ensures var g' := g.(r := Slot(g.r + 1, size)); ShapedRing(g', size) && RingHolds(g', size, putting, true)
  {
    SlotNext(g.taken, size);
  }

  lemma RingTake(g: Ring, size: nat, putting: bool)
    requires 0 < size && ShapedRing(g, size) && RingHolds(g, size, putting, true) && g.taken < |g.written|
    ensures var g' := g.(taken := g.taken + 1);
            g.list[g.r] == g.written[g.taken] && ShapedRing(g', size) && RingHolds(g', size, putting, false)
  {
  }

  lemma PutterHolds(s: State, i: nat)
    requires OwnersInv(s) && TokensOwned(s.own.tokens, s.threads) && i in s.threads && s.threads[i].PutList?
    ensures ListPc(s) == s.threads[i]
    ensures s.threads[i].shard < |s.own.tokens| && s.own.tokens[s.threads[i].shard] == Held(i)
  {
    hide LocksOwned, InFlightOwned, RunnerOwned;
  }


  /** One thread moves, and nobody who adds nothing comes up. */
  lemma NonEmptyKept(threads: map<nat, Pc>, i: nat, pc': Pc)
    requires NonEmpty(threads) && i in threads && (HasGetters(pc') ==> HasGetters(threads[i]) && pc'.gts == threads[i].gts)
    ensures NonEmpty(threads[i := pc'])
  {
  }

  // ---------------------------------------------------------------- steps that announce nothing

  /** Nothing the announcements depend on moves. */
  lemma MuteKept(s: State, s': State, i: nat)
    requires Shaped(s) && OwnersInv(s) && AnnounceInv(s) && i in s.threads && i in s'.threads && Moves(s, s', i) && Quiet(s, s', i) && Shaped(s')
    requires !s.threads[i].ReadRing? && !s'.threads[i].ReadRing? && (InTask(s'.threads[i]) ==> InTask(s.threads[i]))
    ensures AnnounceInv(s')
  {
    hide Moves, OwnersInv, Announced, RingHolds, TokensOwned, NonEmpty;
    PcsAfter(s, s', i);
    assert s'.threads == s.threads[i := s'.threads[i]];
    TokensKept(s.own.tokens, s'.own.tokens, s.threads, i, s'.threads[i]);
    NonEmptyKept(s.threads, i, s'.threads[i]);
  }

  // ---------------------------------------------------------------- steps that do

  lemma AppendIs(s: State, i: nat, c: Choice)
    requires Ready(s, i, c) && s.threads[i].Append?
    ensures var s', pc := AddStep(s, i, c), s.threads[i];
            && s'.threads == s.threads[i := UnlockShard(pc.shard, pc.first)] && s'.size == s.size && s'.ring == s.ring
            && s'.mem.getters == s.mem.getters[pc.shard := s'.mem.getters[pc.shard]]
            && s'.mem.getters[pc.shard].len == s.mem.getters[pc.shard].len + |pc.gts|
            && pc.first == (s.mem.getters[pc.shard].len == 0)
            && s'.own.tokens == if pc.first then s.own.tokens[pc.shard := Held(i)] else s.own.tokens
  {
  }

  lemma AppendAnnounces(s: State, i: nat, c: Choice)
    requires Inv(s) && AnnounceInv(s) && Ready(s, i, c) && s.threads[i].Append? && Shaped(AddStep(s, i, c))
    ensures AnnounceInv(AddStep(s, i, c))
  {
    hide Moves, OwnersInv, MemoryInv, Watched, Counted, Announced, RingHolds, TokensOwned, NonEmpty, AddStep;
    var s', pc := AddStep(s, i, c), s.threads[i];
    AppendMoves(s, i, c);
    AppendIs(s, i, c);
    PcsAfter(s, s', i);
    HasSome(s.threads, i);
    AnnounceAppend(s.mem.getters, s.own.tokens, s.ring.written, s.ring.taken, pc.shard, s'.mem.getters[pc.shard], i);
    IdleWhenEmpty(s.mem.getters, s.own.tokens, s.ring.written, s.ring.taken, pc.shard);
    TokensKept(s.own.tokens, s'.own.tokens, s.threads, i, s'.threads[i]);
    NonEmptyKept(s.threads, i, s'.threads[i]);
  }

  lemma HasSome(threads: map<nat, Pc>, i: nat)
    requires NonEmpty(threads) && i in threads && HasGetters(threads[i])
    ensures threads[i].gts != []
  {
  }

  lemma IdleWhenEmpty(getters: seq<Slice>, tokens: seq<Token>, written: seq<nat>, taken: nat, sh: nat)
    requires Announced(getters, tokens, written, taken) && sh < |getters|
    ensures sh < |tokens| && (tokens[sh] == Idle <==> getters[sh].len == 0)
  {
  }

  lemma MoveWAnnounces(s: State, i: nat, c: Choice)
    requires Inv(s) && AnnounceInv(s) && Ready(s, i, c) && s.threads[i].MoveW? && Shaped(TriggerStep(s, i, c))
    ensures AnnounceInv(TriggerStep(s, i, c))
  {
    hide Moves, OwnersInv, MemoryInv, Watched, Counted, Announced, RingHolds, TokensOwned, NonEmpty;
    var s' := TriggerStep(s, i, c);
    PutMoves(s, i, c);
    PcsAfter(s, s', i);
    RingMoveW(s.ring, s.size, RunnerPc(s).ReadRing?);
    TokensKept(s.own.tokens, s'.own.tokens, s.threads, i, s'.threads[i]);
    NonEmptyKept(s.threads, i, s'.threads[i]);
  }

  lemma PutIs(s: State, i: nat, c: Choice)
    requires Ready(s, i, c) && s.threads[i].PutList?
    ensures var s', sh := TriggerStep(s, i, c), s.threads[i].shard;
            && s'.threads == s.threads[i := UnlockList] && s'.size == s.size && s'.mem == s.mem
            && s'.ring == s.ring.(list := s.ring.list[s.ring.w := sh], written := s.ring.written + [sh])
            && s'.own.tokens == s.own.tokens[sh := Queued(|s.ring.written|)]
  {
  }

  lemma PutAnnounces(s: State, i: nat, c: Choice)
    requires Inv(s) && AnnounceInv(s) && Ready(s, i, c) && s.threads[i].PutList? && Shaped(TriggerStep(s, i, c))
    ensures AnnounceInv(TriggerStep(s, i, c))
  {
    PutterHolds(s, i);
    hide Moves, OwnersInv, MemoryInv, Watched, Counted, Announced, RingHolds, TokensOwned, NonEmpty, TriggerStep;
    var s', sh := TriggerStep(s, i, c), s.threads[i].shard;
    PutMoves(s, i, c);
    PutIs(s, i, c);
    PcsAfter(s, s', i);
    RoomInRing(s.mem.getters, s.own.tokens, s.ring.written, s.ring.taken, sh);
    AnnouncePut(s.mem.getters, s.own.tokens, s.ring.written, s.ring.taken, sh);
    RingPut(s.ring, s.size, sh, RunnerPc(s).ReadRing?);
    TokensKept(s.own.tokens, s'.own.tokens, s.threads, i, s'.threads[i]);
    NonEmptyKept(s.threads, i, s'.threads[i]);
  }

  /** There is an entry to read, and it is the oldest announcement. */
  lemma EntryIsThere(s: State, i: nat)
    requires Inv(s) && AnnounceInv(s) && i in s.threads && s.threads[i].ReadRing?
    ensures RunnerPc(s) == s.threads[i] && s.ring.taken < |s.ring.written|
    ensures s.ring.list[s.ring.r] == s.ring.written[s.ring.taken] && s.own.tokens[s.ring.list[s.ring.r]] == Queued(s.ring.taken)
  {
    hide LocksOwned, ListOwned, InFlightOwned, MemoryInv, Watched, TokensOwned;
    assert RunnerPc(s) == s.threads[i];
    RingTake(s.ring, s.size, ListPc(s).PutList?);
  }

  lemma ReadIs(s: State, i: nat, c: Choice)
    requires Ready(s, i, c) && s.threads[i].ReadRing?
    ensures var s', sh := SwapStep(s, i, c), s.ring.list[s.ring.r];
            && s'.threads == s.threads[i := Grab(s.threads[i].goal, s.threads[i].neg, sh)] && s'.size == s.size && s'.mem == s.mem
            && s'.ring == s.ring.(taken := s.ring.taken + 1) && s'.own.tokens == s.own.tokens[sh := Held(i)]
  {
  }

  lemma ReadAnnounces(s: State, i: nat, c: Choice)
    requires Inv(s) && AnnounceInv(s) && Ready(s, i, c) && s.threads[i].ReadRing? && Shaped(SwapStep(s, i, c))
    ensures AnnounceInv(SwapStep(s, i, c))
  {
    EntryIsThere(s, i);
    hide Moves, OwnersInv, MemoryInv, Watched, Counted, Announced, RingHolds, TokensOwned, NonEmpty, SwapStep;
    var s' := SwapStep(s, i, c);
    SwapMoves(s, i, c);
    ReadIs(s, i, c);
    PcsAfter(s, s', i);
    RingTake(s.ring, s.size, ListPc(s).PutList?);
    AnnounceTake(s.mem.getters, s.own.tokens, s.ring.written, s.ring.taken, i);
    TokensKept(s.own.tokens, s'.own.tokens, s.threads, i, s'.threads[i]);
    NonEmptyKept(s.threads, i, s'.threads[i]);
  }

  lemma SpareAnnounces(s: State, i: nat, c: Choice)
    requires Inv(s) && AnnounceInv(s) && Ready(s, i, c) && s.threads[i].PutSpare? && Shaped(SwapStep(s, i, c))
    ensures AnnounceInv(SwapStep(s, i, c))
  {
    var s', sh := SwapStep(s, i, c), s.threads[i].shard;
    assert s.own.tokens[sh] == Held(i);
    hide Moves, OwnersInv, MemoryInv, Watched, Counted, Announced, RingHolds, TokensOwned, NonEmpty;
    SwapMoves(s, i, c);
    PcsAfter(s, s', i);
    AnnounceSettle(s.mem.getters, s.own.tokens, s.ring.written, s.ring.taken, sh, s.mem.swap.arr);
    TokensKept(s.own.tokens, s'.own.tokens, s.threads, i, s'.threads[i]);
    NonEmptyKept(s.threads, i, s'.threads[i]);
  }

  /** Storing the spare array, and calling getters, change no shard. */
  lemma DealAnnounces(s: State, s': State, i: nat)
    requires Inv(s) && AnnounceInv(s) && Shaped(s') && i in s.threads && i in s'.threads && Moves(s, s', i)
    requires s'.threads == s.threads[i := s'.threads[i]]
    requires s'.size == s.size && s'.mem.getters == s.mem.getters && s'.own.tokens == s.own.tokens && s'.ring == s.ring
    requires (s.threads[i].SwapIn? && s'.threads[i].Ungrab?) || (s.threads[i].Deal? && (s'.threads[i].Deal? || s'.threads[i].Commit?))
    ensures AnnounceInv(s')
  {
    hide Moves, OwnersInv, MemoryInv, Watched, Counted, Announced, RingHolds, TokensOwned, NonEmpty;
    PcsAfter(s, s', i);
    TokensKept(s.own.tokens, s'.own.tokens, s.threads, i, s'.threads[i]);
    NonEmptyKept(s.threads, i, s'.threads[i]);
  }

  lemma HeadAnnounces(s: State, i: nat, c: Choice)
    requires Inv(s) && AnnounceInv(s) && Ready(s, i, c) && s.threads[i].Head? && Shaped(TaskStep(s, i, c))
    ensures AnnounceInv(TaskStep(s, i, c))
  {
    hide Moves, OwnersInv, MemoryInv, Watched, Counted, Announced, RingHolds, TokensOwned, NonEmpty;
    var s' := TaskStep(s, i, c);
    LoopMoves(s, i, c);
    PcsAfter(s, s', i);
    RingMoveR(s.ring, s.size, ListPc(s).PutList?);
    TokensKept(s.own.tokens, s'.own.tokens, s.threads, i, s'.threads[i]);
    NonEmptyKept(s.threads, i, s'.threads[i]);
  }

  lemma JoinTokens(tokens: seq<Token>, threads: map<nat, Pc>, j: nat, pc: Pc)
    requires TokensOwned(tokens, threads) && NonEmpty(threads) && j !in threads && !Carries(pc) && (HasGetters(pc) ==> pc.gts != [])
    ensures TokensOwned(tokens, threads[j := pc]) && NonEmpty(threads[j := pc])
  {
  }

  lemma JoinAnnounces(s: State, j: nat, pc: Pc)
    requires Shaped(s) && OwnersInv(s) && AnnounceInv(s) && Newcomer(s, j, pc) && Shaped(Join(s, j, pc)) && (pc.Enter? ==> pc.gts != [])
    ensures AnnounceInv(Join(s, j, pc))
  {
    hide OwnersInv, Announced, RingHolds, TokensOwned, NonEmpty;
    JoinWords(s, j, pc);
    JoinTokens(s.own.tokens, s.threads, j, pc);
  }

  lemma StartAnnounces(s: State, i: nat, c: Choice)
    requires Shaped(s) && OwnersInv(s) && AnnounceInv(s) && Ready(s, i, c) && s.threads[i].Start? && Shaped(TriggerStep(s, i, c))
    ensures AnnounceInv(TriggerStep(s, i, c))
  {
    hide AnnounceInv, OwnersInv, Moves, Quiet, Remembers;
    var s', t := TriggerStep(s, i, c), Goto(s, i, Done);
    StartMoves(s, i, c);
    if s.cnt.runNum > 0 {
      MuteKept(s, s', i);
    } else {
      MuteKept(s, t, i);
      PcsAfter(s, t, i);
      assert s' == Join(t, c.task, Load);
      JoinAnnounces(t, c.task, Load);
    }
  }

  lemma StartMoves(s: State, i: nat, c: Choice)
    requires Ready(s, i, c) && s.threads[i].Start?
    ensures Shaped(Goto(s, i, Done)) && Moves(s, Goto(s, i, Done), i) && Quiet(s, Goto(s, i, Done), i)
    ensures s.cnt.runNum > 0 ==> var s' := TriggerStep(s, i, c); i in s'.threads && Moves(s, s', i) && Quiet(s, s', i) && s'.threads[i].Done?
  {
  }

  // ---------------------------------------------------------------- every step, every run

  lemma AddAnnounces(s: State, i: nat, c: Choice)
    requires Inv(s) && AnnounceInv(s) && Ready(s, i, c) && InAdd(s.threads[i]) && Shaped(AddStep(s, i, c))
    ensures AnnounceInv(AddStep(s, i, c))
  {
    hide OwnersInv, MemoryInv, Watched, Counted, AnnounceInv, Remembers, Moves, AddStep;
    if s.threads[i].Append? {
      AppendAnnounces(s, i, c);
    } else {
      if s.threads[i].Measure? || s.threads[i].UnlockShard? { MeasureMoves(s, i, c); } else { EnterMoves(s, i, c); }
      MuteKept(s, AddStep(s, i, c), i);
    }
  }

  lemma TriggerAnnounces(s: State, i: nat, c: Choice)
    requires Inv(s) && AnnounceInv(s) && Ready(s, i, c) && InTriggering(s.threads[i]) && Shaped(TriggerStep(s, i, c))
    ensures AnnounceInv(TriggerStep(s, i, c))
  {
    hide OwnersInv, MemoryInv, Watched, Counted, AnnounceInv, Remembers, Moves, TriggerStep;
    if s.threads[i].MoveW? {
      MoveWAnnounces(s, i, c);
    } else if s.threads[i].PutList? {
      PutAnnounces(s, i, c);
    } else if s.threads[i].Start? {
      StartAnnounces(s, i, c);
    } else {
      if s.threads[i].Bump? { BumpMoves(s, i, c); } else { TriggerMoves(s, i, c); }
      MuteKept(s, TriggerStep(s, i, c), i);
    }
  }

  lemma BumpMoves(s: State, i: nat, c: Choice)
    requires Ready(s, i, c) && s.threads[i].Bump?
    ensures var s' := TriggerStep(s, i, c); i in s'.threads && Moves(s, s', i) && Quiet(s, s', i) && !InTask(s'.threads[i])
  {
    hide Moves;
    PutMoves(s, i, c);
  }

  lemma SwapAnnounces(s: State, i: nat, c: Choice)
    requires Inv(s) && AnnounceInv(s) && Ready(s, i, c) && InSwap(s.threads[i]) && Shaped(SwapStep(s, i, c))
    ensures AnnounceInv(SwapStep(s, i, c))
  {
    hide OwnersInv, MemoryInv, Watched, Counted, AnnounceInv, Remembers, Moves, Along, SwapStep;
    var s' := SwapStep(s, i, c);
    if s.threads[i].ReadRing? {
      ReadAnnounces(s, i, c);
    } else if s.threads[i].PutSpare? {
      SpareAnnounces(s, i, c);
    } else if s.threads[i].SwapIn? {
      SwapMoves(s, i, c);
      SwapInIs(s, i, c);
      DealAnnounces(s, s', i);
    } else {
      LockMoves(s, i, c);
      AlongIs(s, s', i);
      MuteKept(s, s', i);
    }
  }

  lemma AlongIs(s: State, s': State, i: nat)
    requires i in s.threads && i in s'.threads && Along(s, s', i)
    ensures Quiet(s, s', i) && InTask(s.threads[i]) && !s.threads[i].ReadRing? && !s'.threads[i].ReadRing?
  {
    hide Quiet, Counted;
  }

  lemma SwapInIs(s: State, i: nat, c: Choice)
    requires Ready(s, i, c) && s.threads[i].SwapIn?
    ensures var s' := SwapStep(s, i, c);
            && i in s'.threads && s'.threads[i].Ungrab?
            && s'.threads == s.threads[i := s'.threads[i]]
            && s'.size == s.size && s'.mem.getters == s.mem.getters && s'.own.tokens == s.own.tokens && s'.ring == s.ring
  {
  }

  lemma DealIs(s: State, i: nat, c: Choice)
    requires Ready(s, i, c) && s.threads[i].Deal?
    ensures var s' := TaskStep(s, i, c);
            && i in s'.threads && (s'.threads[i].Deal? || s'.threads[i].Commit?)
            && s'.threads == s.threads[i := s'.threads[i]]
            && s'.size == s.size && s'.mem.getters == s.mem.getters && s'.own.tokens == s.own.tokens && s'.ring == s.ring
  {
  }

  lemma TaskAnnounces(s: State, i: nat, c: Choice)
    requires Inv(s) && AnnounceInv(s) && Ready(s, i, c) && InRest(s.threads[i]) && Shaped(TaskStep(s, i, c))
    ensures AnnounceInv(TaskStep(s, i, c))
  {
    hide OwnersInv, MemoryInv, Watched, Counted, AnnounceInv, Remembers, Moves, Along, TaskStep;
    var s' := TaskStep(s, i, c);
    if s.threads[i].Head? {
      HeadAnnounces(s, i, c);
    } else if s.threads[i].Deal? {
      LoopMoves(s, i, c);
      DealIs(s, i, c);
      DealAnnounces(s, s', i);
    } else if s.threads[i].Recheck? || s.threads[i].FinishClose? {
      AgainMoves(s, i, c);
      MuteKept(s, s', i);
    } else {
      if s.threads[i].Flush? || s.threads[i].Reset? { QuitMoves(s, i, c); } else { CountMoves(s, i, c); }
      AlongIs(s, s', i);
      MuteKept(s, s', i);
    }
  }

  lemma CloseAnnounces(s: State, i: nat, c: Choice)
    requires Inv(s) && AnnounceInv(s) && Ready(s, i, c) && InClose(s.threads[i]) && Shaped(CloseStep(s, i, c))
    ensures AnnounceInv(CloseStep(s, i, c))
  {
    hide OwnersInv, MemoryInv, Watched, Counted, AnnounceInv, Remembers, Moves, CloseStep;
    if s.threads[i].CloseCas? || s.threads[i].CloseLoad? { CloseMoves(s, i, c); } else { ClosingMoves(s, i, c); }
    MuteKept(s, CloseStep(s, i, c), i);
  }

  lemma ExecAnnounces(s: State, i: nat, c: Choice)
    requires Inv(s) && AnnounceInv(s) && Enabled(s, i, c)
    ensures Inv(Exec(s, i, c)) && AnnounceInv(Exec(s, i, c))
  {
    ExecKept(s, i, c);
    hide OwnersInv, Watched, Counted, MemoryInv, AnnounceInv, Remembers, AddStep, TriggerStep, SwapStep, CloseStep, TaskStep;
    ReadyHolds(s, i, c);
    var pc := s.threads[i];
    if InAdd(pc) { AddAnnounces(s, i, c); }
    else if InTriggering(pc) { TriggerAnnounces(s, i, c); }
    else if InSwap(pc) { SwapAnnounces(s, i, c); }
    else if InClose(pc) { CloseAnnounces(s, i, c); }
    else { TaskAnnounces(s, i, c); }
  }

  lemma InitAnnounces(s: State)
    requires Init(s)
    ensures Inv(s) && AnnounceInv(s)
  {
    InitOwners(s);
    InitRest(s);
    hide OwnersInv, MemoryInv, Watched, Counted;
  }

  lemma ArriveAnnounces(s: State, s': State)
    requires Inv(s) && AnnounceInv(s) && Arrive(s, s', false)
    ensures Inv(s') && AnnounceInv(s')
  {
    ArriveKept(s, s', false);
    hide OwnersInv, MemoryInv, Watched, Counted, AnnounceInv;
    var i: nat, pc: Pc :| i !in s.threads && (pc.CloseCas? || (pc.Enter? && pc.gts != [])) && s' == Goto(s, i, pc);
    JoinAnnounces(s, i, pc);
  }

  /** Every state of every run without empty Adds. */
  lemma {:induction false} RunKeepsInv(run: seq<State>, n: nat)
    requires IsRun(run, false) && n < |run|
    ensures Inv(run[n]) && AnnounceInv(run[n])
  {
    hide Inv, AnnounceInv, Init, Arrive, Enabled;
    if n == 0 {
      InitAnnounces(run[0]);
    } else {
      RunKeepsInv(run, n - 1);
      assert Next(run[n - 1], run[n - 1 + 1], false);
      if Arrive(run[n - 1], run[n], false) {
        ArriveAnnounces(run[n - 1], run[n]);
      } else {
        var i, c :| Enabled(run[n - 1], i, c) && run[n] == Exec(run[n - 1], i, c);
        ExecAnnounces(run[n - 1], i, c);
      }
    }
  }

  lemma ReachableInv(s: State)
    requires Reachable(s, false)
    ensures Inv(s) && AnnounceInv(s)
  {
    hide Inv, AnnounceInv;
    var run: seq<State> :| IsRun(run, false) && s == run[|run| - 1];
    RunKeepsInv(run, |run| - 1);
  }

  // ---------------------------------------------------------------- what callers get

  /** Once every goroutine is done, every accepted getter was called exactly once, in the order its shard
      accepted them; nothing is left in a shard, and the counters are back at zero. */
  lemma ExactlyOnceAtRest(s: State)
    requires Reachable(s, false) && Quiescent(s) && !s.mem.failed
    ensures Shaped(s)
    ensures s.mem.called == s.mem.accepted
    ensures forall sh :: 0 <= sh < s.size ==> s.mem.getters[sh].len == 0
    ensures s.cnt.trigger == 0 && s.cnt.runNum == 0
  {
    hide Reachable, OwnersInv, RingHolds, Watched, Counted, MemoryInv;
    NothingLeftAtRest(s, false);
    ReachableInv(s);
    forall sh | 0 <= sh < s.size
      ensures s.mem.getters[sh].len == 0 && s.mem.called[sh] == s.mem.accepted[sh]
    {
      assert !s.own.tokens[sh].Held?;
      assert s.own.tokens[sh] == Idle;
      assert Contents(s.mem.heap, s.mem.getters[sh]) == [];
    }
  }

  /** Unread entries name distinct non-empty shards, so they always fit in the ring. */
  lemma RingNeverOverrun(s: State)
    requires Reachable(s, false)
    ensures Shaped(s) && s.ring.taken <= |s.ring.written| <= s.ring.taken + s.size
    ensures forall k :: s.ring.taken <= k < |s.ring.written| ==>
              s.ring.written[k] < s.size && s.mem.getters[s.ring.written[k]].len > 0
    ensures forall j, k :: s.ring.taken <= j < k < |s.ring.written| ==> s.ring.written[j] != s.ring.written[k]
  {
    hide Reachable, OwnersInv, MemoryInv, Watched, Counted, RingHolds;
    ReachableInv(s);
    var written, taken := s.ring.written, s.ring.taken;
    forall k | taken <= k < |written|
      ensures s.own.tokens[written[k]] == Queued(k)
    {
    }
    Pigeonhole(written[taken..], s.size);
  }

  /** The slot a producer is about to write holds no unread entry. */
  lemma WriteSlotIsFree(s: State, i: nat, k: nat)
    requires Reachable(s, false) && i in s.threads && s.threads[i].PutList?
    requires s.ring.taken < k <= |s.ring.written|
    ensures 0 < s.size && Slot(k, s.size) != s.ring.w
  {
    hide Reachable, MemoryInv, Watched, Announced, Counted;
    ReachableInv(s);
    PutterHolds(s, i);
    hide OwnersInv;
    RoomInRing(s.mem.getters, s.own.tokens, s.ring.written, s.ring.taken, s.threads[i].shard);
    SlotsDiffer(k, |s.ring.written| + 1, s.size);
  }
}
