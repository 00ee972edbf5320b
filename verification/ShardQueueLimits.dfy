/** Where the shard queue's promise ends: `Add()` with no getters announces a shard that stays empty, so
    that with two shards or more the ring can be overrun and a getter lost for good. */
module ShardQueueLimits {
  import opened Prelude
  import opened ShardQueue
  import opened ShardQueueSafety
  import ShardQueueRing
  import ShardQueueSingle

  // ---------------------------------------------------------------- building runs

  lemma Extend(s: State, s': State)
    requires Reachable(s, true) && Next(s, s', true)
    ensures Reachable(s', true)
  {
    hide Next, Init;
    var run: seq<State> :| IsRun(run, true) && s == run[|run| - 1];
    var longer := run + [s'];
    forall k | 0 <= k < |longer| - 1
      ensures Next(longer[k], longer[k + 1], true)
    {
      if k < |run| - 1 { assert Next(run[k], run[k + 1], true); }
    }
    assert IsRun(longer, true) && s' == longer[|longer| - 1];
  }

  lemma Act(s: State, i: nat, c: Choice)
    requires Reachable(s, true) && Enabled(s, i, c)
    ensures Reachable(Exec(s, i, c), true) && Shaped(Exec(s, i, c))
  {
    hide Reachable, Enabled, Exec;
    Extend(s, Exec(s, i, c));
    StaysShaped(Exec(s, i, c));
  }

  lemma StaysShaped(s: State)
    requires Reachable(s, true)
    ensures Shaped(s)
  {
    hide Reachable, OwnersInv, Counted, MemoryInv, Watched;
    ReachableInv(s, true);
  }

  lemma Come(s: State, i: nat, gts: seq<Getter>)
    requires Reachable(s, true) && i !in s.threads
    ensures Reachable(Goto(s, i, Enter(gts)), true)
  {
    hide Reachable;
    var pc, s' := Enter(gts), Goto(s, i, Enter(gts));
    assert i !in s.threads && (pc.CloseCas? || (pc.Enter? && true)) && s' == Goto(s, i, pc);
    assert Arrive(s, s', true);
    Extend(s, s');
  }

  const TASK := 9
  const ANY := Choice(TASK, [], false)

  // ---------------------------------------------------------------- one call of Add

  predicate Unlocked(s: State)
  {
    s.own.listLock.None? && forall sh :: 0 <= sh < |s.own.locks| ==> s.own.locks[sh].None?
  }

  /** Up to the append. */
  lemma Picks(s: State, i: nat, gts: seq<Getter>) returns (s': State)
    requires Reachable(s, true) && Shaped(s) && s.status == Active && Unlocked(s) && s.idx < MAX_INT32
    requires i in s.threads && s.threads[i] == Enter(gts)
    ensures var sh := Slot(s.idx + 1, s.size);
            && Reachable(s', true) && Shaped(s') && s'.own == s.own.(locks := s.own.locks[sh := Some(i)])
            && s' == s.(idx := s.idx + 1, own := s'.own, threads := s.threads[i := Append(gts, sh, s.mem.getters[sh].len == 0)])
  {
    hide Reachable, TriggerStep, SwapStep, TaskStep, CloseStep;
    var sh := Slot(s.idx + 1, s.size);
    Act(s, i, ANY);
    var s1 := Exec(s, i, ANY);
    assert s1.threads == s.threads[i := Pick(gts)];
    Act(s1, i, ANY);
    var s2 := Exec(s1, i, ANY);
    assert s2.threads == s.threads[i := LockShard(gts, sh)];
    Act(s2, i, ANY);
    var s3 := Exec(s2, i, ANY);
    assert s3.threads == s.threads[i := Measure(gts, sh)];
    Act(s3, i, ANY);
    s' := Exec(s3, i, ANY);
    assert s'.threads == s.threads[i := Append(gts, sh, s.mem.getters[sh].len == 0)];
  }

  lemma Appends(s: State, i: nat, gts: seq<Getter>, sh: nat, first: bool) returns (s': State)
    requires Reachable(s, true) && Shaped(s) && i in s.threads && s.threads[i] == Append(gts, sh, first) && sh < s.size
    ensures Reachable(s', true) && Shaped(s') && s'.own.locks == s.own.locks[sh := None] && s'.own.listLock == s.own.listLock
    ensures s' == s.(mem := AppendTo(s.mem, sh, gts, []), own := s'.own, threads := s.threads[i := if first then LockList(sh) else Done])
  {
    hide Reachable, AppendTo, TriggerStep, SwapStep, TaskStep, CloseStep;
    Act(s, i, ANY);
    var s1 := Exec(s, i, ANY);
    assert s1.threads == s.threads[i := UnlockShard(sh, first)] && s1.mem == AppendTo(s.mem, sh, gts, []);
    Act(s1, i, ANY);
    s' := Exec(s1, i, ANY);
    assert s'.threads == s.threads[i := if first then LockList(sh) else Done];
  }

  /** triggering up to the store in the ring. */
  lemma Reserves(s: State, i: nat, sh: nat) returns (s': State)
    requires Reachable(s, true) && Shaped(s) && s.own.listLock.None? && i in s.threads && s.threads[i] == LockList(sh) && sh < s.size
    ensures Reachable(s', true) && Shaped(s') && s'.own == s.own.(listLock := Some(i)) && s'.ring == s.ring.(w := Slot(s.ring.w + 1, s.size))
    ensures s' == s.(ring := s'.ring, own := s'.own, threads := s.threads[i := PutList(sh)])
  {
    hide Reachable, AddStep, SwapStep, TaskStep, CloseStep;
    Act(s, i, ANY);
    var s1 := Exec(s, i, ANY);
    assert s1.threads == s.threads[i := MoveW(sh)];
    Act(s1, i, ANY);
    s' := Exec(s1, i, ANY);
    assert s'.threads == s.threads[i := PutList(sh)];
  }

  /** ... and from there to the trigger counter. */
  lemma Stores(s: State, i: nat, sh: nat) returns (s': State)
    requires Reachable(s, true) && Shaped(s) && i in s.threads && s.threads[i] == PutList(sh) && sh < s.size
    ensures Reachable(s', true) && Shaped(s') && s'.own.locks == s.own.locks && s'.own.listLock.None?
    ensures s'.ring.w == s.ring.w && s'.ring.r == s.ring.r && s'.ring.list == s.ring.list[s.ring.w := sh]
    ensures s'.cnt.trigger == s.cnt.trigger && s'.cnt.runNum == s.cnt.runNum
    ensures s' == s.(ring := s'.ring, cnt := s'.cnt, own := s'.own, threads := s.threads[i := Bump])
  {
    hide Reachable, AddStep, SwapStep, TaskStep, CloseStep;
    Act(s, i, ANY);
    var s1 := Exec(s, i, ANY);
    assert s1.threads == s.threads[i := UnlockList];
    Act(s1, i, ANY);
    s' := Exec(s1, i, ANY);
    assert s'.threads == s.threads[i := Bump];
  }

  lemma Bumps(s: State, i: nat) returns (s': State)
    requires Reachable(s, true) && Shaped(s) && i in s.threads && s.threads[i] == Bump
    ensures Reachable(s', true) && Shaped(s') && s'.cnt.trigger == s.cnt.trigger + 1 && s'.cnt.runNum == s.cnt.runNum
    ensures s' == s.(cnt := s'.cnt, threads := s.threads[i := if s.cnt.trigger + 1 > 1 then Done else Start])
  {
    hide Reachable, AddStep, SwapStep, TaskStep, CloseStep;
    Act(s, i, ANY);
    s' := Exec(s, i, ANY);
  }

  lemma Starts(s: State, i: nat) returns (s': State)
    requires Reachable(s, true) && Shaped(s) && i in s.threads && s.threads[i] == Start && TASK !in s.threads && s.cnt.runNum == 0
    ensures Reachable(s', true) && Shaped(s') && s'.cnt == s.cnt.(runNum := 1) && s'.own == s.own.(runner := Some(TASK))
    ensures s' == s.(cnt := s'.cnt, own := s'.own, threads := s.threads[i := Done][TASK := Load])
  {
    hide Reachable, AddStep, SwapStep, TaskStep, CloseStep;
    Act(s, i, ANY);
    s' := Exec(s, i, ANY);
  }

  lemma AppendNothing(m: Memory, sh: nat)
    requires ShapedMemory(m, |m.getters|) && sh < |m.getters|
    ensures AppendTo(m, sh, [], []) == m
  {
    var sl := m.getters[sh];
    var a := m.heap[sl.arr];
    assert a[..sl.len] + [] + a[sl.len..] == a;
    assert m.accepted[sh] + [] == m.accepted[sh];
  }

  lemma AppendOne(m: Memory, sh: nat, g: Getter)
    requires ShapedMemory(m, |m.getters|) && sh < |m.getters| && m.getters[sh].len == 0
    ensures var m' := AppendTo(m, sh, [g], []);
            && m'.getters == m.getters[sh := m'.getters[sh]] && m'.getters[sh].len == 1 && m'.swap == m.swap
            && m'.accepted == m.accepted[sh := m.accepted[sh] + [g]] && m'.called == m.called && m'.failed == m.failed
  {
  }

  // ---------------------------------------------------------------- the run

  /** All goroutines but the task are done; they have ids behind `TASK`. */
  ghost predicate Idlers(threads: map<nat, Pc>, count: nat)
  {
    forall i :: i in threads && i != TASK ==> TASK < i <= TASK + count && threads[i].Done?
  }

  /** The getter lies in shard 1, every other shard is empty. */
  ghost predicate OnlyOne(m: Memory, size: nat, g: Getter)
    requires 1 < size && ShapedMemory(m, size)
  {
    && m.getters[1].len == 1 && m.accepted[1] == [g] && m.called[1] == [] && m.swap.len == 0 && !m.failed
    && forall sh :: 0 <= sh < size && sh != 1 ==> m.getters[sh].len == 0
  }

  /** Entries from the second on name other shards than the getter's. */
  ghost predicate Misleading(list: seq<nat>, size: nat, entries: nat)
    requires 0 < size <= |list|
  {
    forall k :: 2 <= k <= entries ==> list[Slot(k, size)] != 1
  }

  /** `calls` calls of Add have returned, `entries` of them with an entry; the task has not looked yet. */
  ghost predicate Stage(s: State, g: Getter, calls: nat, entries: nat)
  {
    && Reachable(s, true) && Shaped(s) && 1 < s.size && s.status == Active && Unlocked(s)
    && s.idx == calls && s.ring.w == Slot(entries, s.size) && s.ring.r == 0 && s.cnt.trigger == entries && s.cnt.runNum == 1
    && OnlyOne(s.mem, s.size, g) && Misleading(s.ring.list, s.size, entries)
    && TASK in s.threads && s.threads[TASK] == Load && Idlers(s.threads, calls)
  }

  /** Add from its call to the list mutex, or to its end if the shard was not empty. */
  lemma Enters(s: State, i: nat, gts: seq<Getter>) returns (s': State)
    requires Reachable(s, true) && Shaped(s) && s.status == Active && Unlocked(s) && s.idx < MAX_INT32 && i !in s.threads
    ensures var sh := Slot(s.idx + 1, s.size);
            && Reachable(s', true) && Shaped(s') && Unlocked(s')
            && s' == s.(idx := s.idx + 1, mem := AppendTo(s.mem, sh, gts, []), own := s'.own,
                        threads := s.threads[i := if s.mem.getters[sh].len == 0 then LockList(sh) else Done])
  {
    hide Reachable, Exec, AppendTo, Slot;
    var sh := Slot(s.idx + 1, s.size);
    Come(s, i, gts);
    var s0 := Goto(s, i, Enter(gts));
    var s1 := Picks(s0, i, gts);
    s' := Appends(s1, i, gts, sh, s.mem.getters[sh].len == 0);
    assert s'.threads == s.threads[i := if s.mem.getters[sh].len == 0 then LockList(sh) else Done];
  }

  /** triggering. */
  lemma Triggers(s: State, i: nat, sh: nat) returns (s': State)
    requires Reachable(s, true) && Shaped(s) && Unlocked(s) && i in s.threads && s.threads[i] == LockList(sh) && sh < s.size
    ensures var w := Slot(s.ring.w + 1, s.size);
            && Reachable(s', true) && Shaped(s') && Unlocked(s') && s'.ring.w == w && s'.ring.r == s.ring.r && s'.ring.list == s.ring.list[w := sh]
            && s'.cnt.trigger == s.cnt.trigger + 1 && s'.cnt.runNum == s.cnt.runNum
            && s' == s.(ring := s'.ring, cnt := s'.cnt, own := s'.own, threads := s.threads[i := if s.cnt.trigger + 1 > 1 then Done else Start])
  {
    hide Reachable, Exec, Slot;
    var s3 := Reserves(s, i, sh);
    var s4 := Stores(s3, i, sh);
    s' := Bumps(s4, i);
    assert s'.threads == s.threads[i := if s.cnt.trigger + 1 > 1 then Done else Start];
  }

  /** Add with nothing, on a shard that is empty: one more entry, and it does not name shard 1. */
  lemma AddsEmpty(s: State, g: Getter, calls: nat, entries: nat) returns (s': State)
    requires Stage(s, g, calls, entries) && 0 < entries && calls < MAX_INT32 && Slot(calls + 1, s.size) != 1
    ensures s'.size == s.size && Stage(s', g, calls + 1, entries + 1)
  {
    hide Reachable, AppendTo, Slot, Misleading;
    var sh, i := Slot(calls + 1, s.size), TASK + calls + 1;
    assert s.mem.getters[sh].len == 0 by { SlotIn(calls + 1, s.size); }
    AppendNothing(s.mem, sh);
    var s2 := Enters(s, i, []);
    s' := Triggers(s2, i, sh);
    MoreMisleading(s.ring.list, s.size, entries, sh);
    assert s'.threads == s.threads[i := Done];
  }

  lemma SlotIn(k: nat, size: nat)
    requires 0 < size
    ensures Slot(k, size) < size
  {
  }

  lemma MoreMisleading(list: seq<nat>, size: nat, entries: nat, sh: nat)
    requires 1 < size == |list| && Misleading(list, size, entries) && 0 < entries && sh != 1
    ensures Slot(Slot(entries, size) + 1, size) == Slot(entries + 1, size)
    ensures Misleading(list[Slot(entries + 1, size) := sh], size, entries + 1)
  {
    ShardQueueRing.SlotNext(entries, size);
    hide Slot;
  }

  /** Add with nothing, on the getter's shard: no entry. */
  lemma AddsBeside(s: State, g: Getter, calls: nat, entries: nat) returns (s': State)
    requires Stage(s, g, calls, entries) && calls < MAX_INT32 && Slot(calls + 1, s.size) == 1
    ensures s'.size == s.size && Stage(s', g, calls + 1, entries)
  {
    hide Reachable, AppendTo, Slot, Misleading;
    var i := TASK + calls + 1;
    AppendNothing(s.mem, 1);
    s' := Enters(s, i, []);
    assert s'.threads == s.threads[i := Done];
  }

  function Fresh(size: nat): State
    requires 1 < size
  {
    var none: seq<seq<Getter>> := seq(size, _ => []);
    State(size, Active, 0, Memory(seq(size, k requires 0 <= k < size => Slice(k, 0)), Slice(size, 0), seq(size + 1, _ => []), none, none, false),
          Ring(0, 0, seq(size, _ => 0), [], 0), Counters(0, 0, 0, 0, {}), Owners(seq(size, _ => None), None, None, seq(size, _ => Idle)), map[])
  }

  ghost predicate Blank(s: State)
  {
    && Shaped(s) && 1 < s.size && s.status == Active && Unlocked(s) && s.idx == 0 && s.threads == map[]
    && s.cnt.trigger == 0 && s.cnt.runNum == 0 && s.ring.w == 0 && s.ring.r == 0
    && s.mem.accepted[1] == [] && s.mem.called[1] == [] && s.mem.swap.len == 0 && !s.mem.failed
    && forall sh :: 0 <= sh < s.size ==> s.mem.getters[sh].len == 0
  }

  lemma Opens(size: nat)
    requires 1 < size
    ensures Reachable(Fresh(size), true) && Blank(Fresh(size)) && Fresh(size).size == size
  {
    hide Next;
    assert IsRun([Fresh(size)], true) && Fresh(size) == [Fresh(size)][0];
    hide Reachable;
  }

  lemma FirstSlot(size: nat)
    requires 1 < size
    ensures Slot(0, size) == 0 && Slot(1, size) == 1
  {
  }

  /** The first call adds the getter, to shard 1; its trigger starts the task. */
  lemma AddsGetter(s: State, g: Getter) returns (s': State)
    requires Reachable(s, true) && Blank(s)
    ensures s'.size == s.size && Stage(s', g, 1, 1)
  {
    hide Reachable, AppendTo, Slot;
    var i := TASK + 1;
    FirstSlot(s.size);
    AppendOne(s.mem, 1, g);
    var s1 := Enters(s, i, [g]);
    var s2 := Triggers(s1, i, 1);
    s' := Starts(s2, i);
    assert s'.threads == map[i := Done, TASK := Load];
  }

  /** Empty calls go round the shards; the one that comes to the getter's puts no entry, all others do. */
  lemma {:induction false} GoesRound(s: State, g: Getter, calls: nat, entries: nat, more: nat) returns (s': State)
    requires Stage(s, g, calls, entries) && calls == entries && 0 < entries && entries + more <= s.size && s.size < MAX_INT32
    ensures s'.size == s.size && Stage(s', g, calls + more, entries + more)
    decreases more
  {
    hide Stage;
    if more == 0 {
      s' := s;
    } else {
      assert s.size > 1 && Slot(calls + 1, s.size) != 1 by { NotOne(s, g, calls, entries); }
      var s1 := AddsEmpty(s, g, calls, entries);
      s' := GoesRound(s1, g, calls + 1, entries + 1, more - 1);
    }
  }

  lemma NotOne(s: State, g: Getter, calls: nat, entries: nat)
    requires Stage(s, g, calls, entries) && 1 <= calls < s.size
    ensures s.size > 1 && Slot(calls + 1, s.size) != 1
  {
    hide Reachable, Misleading, OnlyOne;
  }

  /** Two more calls, and the getter's entry is overwritten. */
  lemma Overruns(size: nat, g: Getter) returns (s': State)
    requires 1 < size < MAX_INT32 - 1
    ensures s'.size == size && Stage(s', g, size + 2, size + 1)
  {
    hide Stage, Reachable, Blank, Fresh;
    Opens(size);
    var s := AddsGetter(Fresh(size), g);
    s := GoesRound(s, g, 1, 1, size - 1);
    LastSlots(size);
    s := AddsBeside(s, g, size, size);
    s' := AddsEmpty(s, g, size + 1, size);
  }

  lemma LastSlots(size: nat)
    requires 1 < size
    ensures Slot(size + 1, size) == 1 && Slot(size + 2, size) != 1
  {
    if size == 2 { assert Slot(4, 2) == Slot(2, 2) == 0; }
  }

  // ---------------------------------------------------------------- the task drains the wrong shards

  /** The task is at `pc`, `turns` entries on; none of the ring's entries names the getter's shard. */
  ghost predicate Draining(s: State, g: Getter, calls: nat, turns: nat, pc: Pc)
  {
    && Reachable(s, true) && Shaped(s) && 1 < s.size && s.status == Active && Unlocked(s)
    && s.ring.r == Slot(turns, s.size) && OnlyOne(s.mem, s.size, g)
    && (forall p :: 0 <= p < s.size ==> s.ring.list[p] != 1)
    && TASK in s.threads && s.threads[TASK] == pc && Idlers(s.threads, calls)
  }

  /** The entries from the second to the one behind a full turn fill the ring. */
  lemma AllMisleading(list: seq<nat>, size: nat)
    requires 1 < size == |list| && Misleading(list, size, size + 1)
    ensures forall p :: 0 <= p < size ==> list[p] != 1
  {
    forall p | 0 <= p < size ensures list[p] != 1 {
      var k := if p < 2 then p + size else p;
      assert Slot(k, size) == p;
    }
  }

  lemma Loads(s: State, g: Getter, calls: nat) returns (s': State)
    requires 1 < s.size && Stage(s, g, calls, s.size + 1)
    ensures s'.size == s.size && s'.cnt.trigger == s.size + 1 && Draining(s', g, calls, 0, Head(s.size + 1, 0))
  {
    hide Reachable, AddStep, TriggerStep, SwapStep, CloseStep;
    AllMisleading(s.ring.list, s.size);
    FirstSlot(s.size);
    hide Misleading, Slot;
    Act(s, TASK, ANY);
    s' := Exec(s, TASK, ANY);
    assert s'.threads == s.threads[TASK := Head(s.size + 1, 0)];
  }

  lemma TakesShard(s: State, g: Getter, calls: nat, turns: nat, goal: int, neg: int) returns (s': State, sh: nat)
    requires Draining(s, g, calls, turns, Head(goal, neg)) && goal > 0
    ensures Reachable(s', true) && Shaped(s') && sh < s.size && sh != 1
    ensures s'.own.locks == s.own.locks[sh := Some(TASK)] && s'.own.listLock == s.own.listLock
    ensures s'.ring.r == Slot(s.ring.r + 1, s.size) && s'.ring.list == s.ring.list
    ensures s' == s.(ring := s'.ring, own := s'.own, threads := s.threads[TASK := TakeOld(goal, neg, sh)])
  {
    hide Reachable, AddStep, TriggerStep, CloseStep, OnlyOne;
    Act(s, TASK, ANY);
    var s1 := Exec(s, TASK, ANY);
    assert s1.threads == s.threads[TASK := ReadRing(goal, neg)];
    hide TaskStep;
    sh := s1.ring.list[s1.ring.r];
    Act(s1, TASK, ANY);
    var s2 := Exec(s1, TASK, ANY);
    assert s2.threads == s.threads[TASK := Grab(goal, neg, sh)];
    Act(s2, TASK, ANY);
    s' := Exec(s2, TASK, ANY);
    assert s'.threads == s.threads[TASK := TakeOld(goal, neg, sh)];
  }

  lemma PutsSpare(s: State, goal: int, neg: int, sh: nat) returns (s': State)
    requires Reachable(s, true) && Shaped(s) && TASK in s.threads && s.threads[TASK] == TakeOld(goal, neg, sh) && sh < s.size
    ensures Reachable(s', true) && Shaped(s') && s'.own.locks == s.own.locks && s'.own.listLock == s.own.listLock
    ensures s' == s.(mem := s.mem.(getters := s.mem.getters[sh := Slice(s.mem.swap.arr, 0)]), own := s'.own,
                     threads := s.threads[TASK := SwapIn(goal, neg, sh, s.mem.getters[sh])])
  {
    hide Reachable, AddStep, TriggerStep, TaskStep, CloseStep;
    Act(s, TASK, ANY);
    var s1 := Exec(s, TASK, ANY);
    assert s1.threads == s.threads[TASK := PutSpare(goal, neg, sh, s.mem.getters[sh])];
    Act(s1, TASK, ANY);
    s' := Exec(s1, TASK, ANY);
    assert s'.threads == s.threads[TASK := SwapIn(goal, neg, sh, s.mem.getters[sh])];
  }

  lemma SwapsEmpty(s: State, goal: int, neg: int, sh: nat) returns (s': State)
    requires Reachable(s, true) && Shaped(s) && TASK in s.threads && s.threads[TASK] == TakeOld(goal, neg, sh) && sh < s.size
    requires s.mem.getters[sh].len == 0
    ensures Reachable(s', true) && Shaped(s') && s'.own.locks == s.own.locks && s'.own.listLock == s.own.listLock && s'.mem.swap.len == 0
    ensures s'.mem.getters[sh].len == 0 && s'.mem.getters == s.mem.getters[sh := s'.mem.getters[sh]]
    ensures s' == s.(mem := s.mem.(getters := s'.mem.getters, swap := s'.mem.swap), own := s'.own, threads := s.threads[TASK := Ungrab(goal, neg, sh)])
  {
    hide Reachable, AddStep, TriggerStep, TaskStep, CloseStep;
    var s2 := PutsSpare(s, goal, neg, sh);
    Act(s2, TASK, ANY);
    s' := Exec(s2, TASK, ANY);
    assert s'.threads == s.threads[TASK := Ungrab(goal, neg, sh)];
  }

  lemma DealsNothing(s: State, goal: int, neg: int, sh: nat) returns (s': State)
    requires Reachable(s, true) && Shaped(s) && TASK in s.threads && s.threads[TASK] == Ungrab(goal, neg, sh) && sh < s.size && s.mem.swap.len == 0
    ensures Reachable(s', true) && Shaped(s')
    ensures s' == s.(own := SetLock(s.own, sh, None), threads := s.threads[TASK := Commit(goal, neg)])
  {
    hide Reachable, AddStep, TriggerStep, CloseStep;
    Act(s, TASK, ANY);
    var s1 := Exec(s, TASK, ANY);
    assert s1.threads == s.threads[TASK := Deal(goal, neg, sh, 0)];
    Act(s1, TASK, ANY);
    s' := Exec(s1, TASK, ANY);
    assert s'.threads == s.threads[TASK := Commit(goal, neg)];
  }

  /** One turn of the task's loop up to the count, on a shard that is empty. */
  lemma DrainsEmpty(s: State, g: Getter, calls: nat, turns: nat, goal: int, neg: int) returns (s': State)
    requires Draining(s, g, calls, turns, Head(goal, neg)) && goal > 0
    ensures s'.size == s.size && s'.cnt == s.cnt && Draining(s', g, calls, turns + 1, Commit(goal, neg))
  {
    hide Reachable, Slot, Exec;
    var s1, sh := TakesShard(s, g, calls, turns, goal, neg);
    var s2 := SwapsEmpty(s1, goal, neg, sh);
    s' := DealsNothing(s2, goal, neg, sh);
    ShardQueueRing.SlotNext(turns, s.size);
    assert s'.threads == s.threads[TASK := Commit(goal, neg)];
  }

  lemma Commits(s: State, g: Getter, calls: nat, turns: nat, goal: int, neg: int) returns (s': State)
    requires Draining(s, g, calls, turns, Commit(goal, neg)) && s.cnt.trigger == goal
    ensures s'.size == s.size
    ensures if goal + neg == 1 then s'.cnt.trigger == 0 && Draining(s', g, calls, turns, Head(0, 0))
            else s'.cnt == s.cnt && Draining(s', g, calls, turns, Head(goal, neg - 1))
  {
    hide Reachable, AddStep, TriggerStep, SwapStep, CloseStep, Slot;
    Act(s, TASK, ANY);
    s' := Exec(s, TASK, ANY);
    assert s'.threads == s.threads[TASK := if goal + neg == 1 then Head(0, 0) else Head(goal, neg - 1)];
  }

  /** All entries are worked off. */
  lemma {:induction false} Drains(s: State, g: Getter, calls: nat, turns: nat, goal: int) returns (s': State, end: nat)
    requires turns < goal && s.cnt.trigger == goal && Draining(s, g, calls, turns, Head(goal, 0 - turns))
    ensures s'.size == s.size && s'.cnt.trigger == 0 && Draining(s', g, calls, end, Head(0, 0))
    decreases goal - turns
  {
    hide Draining;
    var s1 := DrainsEmpty(s, g, calls, turns, goal, 0 - turns);
    var s2 := Commits(s1, g, calls, turns + 1, goal, 0 - turns);
    if turns + 1 == goal {
      s', end := s2, turns + 1;
    } else {
      s', end := Drains(s2, g, calls, turns + 1, goal);
    }
  }

  lemma Resets(s: State, g: Getter, calls: nat, turns: nat) returns (s': State)
    requires Draining(s, g, calls, turns, Head(0, 0)) && s.cnt.trigger == 0
    ensures s'.size == s.size && s'.cnt.trigger == 0 && Draining(s', g, calls, turns, Recheck)
  {
    hide Reachable, AddStep, TriggerStep, SwapStep, CloseStep, Slot;
    Act(s, TASK, ANY);
    var s1 := Exec(s, TASK, ANY);
    assert s1.threads == s.threads[TASK := Flush];
    Act(s1, TASK, ANY);
    var s2 := Exec(s1, TASK, ANY);
    assert s2.threads == s.threads[TASK := Reset];
    Act(s2, TASK, ANY);
    s' := Exec(s2, TASK, ANY);
    assert s'.threads == s.threads[TASK := Recheck];
  }

  lemma Leaves(s: State, g: Getter, calls: nat, turns: nat) returns (s': State)
    requires Draining(s, g, calls, turns, Recheck) && s.cnt.trigger == 0
    ensures s'.size == s.size && Draining(s', g, calls, turns, Done)
  {
    hide Reachable, AddStep, TriggerStep, SwapStep, CloseStep, Slot;
    Act(s, TASK, ANY);
    var s1 := Exec(s, TASK, ANY);
    assert s1.threads == s.threads[TASK := FinishClose];
    Act(s1, TASK, ANY);
    s' := Exec(s1, TASK, ANY);
    assert s'.threads == s.threads[TASK := Done];
  }

  /** A getter that was accepted is never called, although every goroutine is done: for any number of shards
      from two on. */
  lemma EmptyAddsLoseGetters(size: nat, g: Getter) returns (s: State)
    requires 1 < size < MAX_INT32 - 1
    ensures Reachable(s, true) && s.size == size && Quiescent(s) && !s.mem.failed
    ensures |s.mem.accepted| == |s.mem.called| == size && s.mem.accepted[1] == [g] && s.mem.called[1] == []
  {
    hide Reachable, Stage, Slot;
    s := Overruns(size, g);
    var calls, end := size + 2, 0;
    s := Loads(s, g, calls);
    s, end := Drains(s, g, calls, 0, size + 1);
    s := Resets(s, g, calls, end);
    s := Leaves(s, g, calls, end);
  }

  /** For a queue of any size: at rest everything accepted has been called, in every run, exactly if it has
      one shard or no caller ever calls Add with nothing to add.  (The counter-run makes size + 2 calls,
      and the index is an int32.) */
  lemma ExactlyOnceIff(size: nat, empties: bool)
    requires 0 < size < MAX_INT32 - 1
    ensures (forall s :: Reachable(s, empties) && s.size == size && Quiescent(s) && !s.mem.failed ==> s.mem.called == s.mem.accepted)
            <==> size == 1 || !empties
  {
    hide Reachable, Quiescent;
    if size > 1 && empties {
      var s := EmptyAddsLoseGetters(size, 7);
      assert s.mem.called[1] != s.mem.accepted[1];
    } else {
      forall s | Reachable(s, empties) && s.size == size && Quiescent(s) && !s.mem.failed
        ensures s.mem.called == s.mem.accepted
      {
        if empties { ShardQueueSingle.ExactlyOnceAtRest(s, empties); } else { ShardQueueRing.ExactlyOnceAtRest(s); }
      }
    }
  }
}
