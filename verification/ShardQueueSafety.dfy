/** What every reachable state of the shard queue satisfies, whatever is added: calls in Add order, one
    consumer, counters that add up, and backing arrays that never alias. */
module ShardQueueSafety {
  import opened Prelude
  import opened ShardQueue

  // ---------------------------------------------------------------- the invariant

  predicate HoldsShard(pc: Pc)
  {
    pc.Measure? || pc.Append? || pc.UnlockShard? || pc.TakeOld? || pc.PutSpare? || pc.SwapIn? || pc.Ungrab?
  }

  /** Thread carries the announcement of shard `pc.shard`. */
  predicate Carries(pc: Pc)
  {
    (pc.UnlockShard? && pc.first) || pc.LockList? || pc.MoveW? || pc.PutList? || pc.Grab? || pc.TakeOld? || pc.PutSpare?
  }

  predicate InTask(pc: Pc)
  {
    pc.Load? || pc.Head? || pc.ReadRing? || pc.Grab? || pc.TakeOld? || pc.PutSpare? || pc.SwapIn?
    || pc.Ungrab? || pc.Deal? || pc.Commit? || pc.Flush? || pc.Reset?
  }

  ghost predicate LocksOwned(locks: seq<Option<nat>>, threads: map<nat, Pc>)
  {
    && (forall i :: i in threads && HoldsShard(threads[i]) ==>
        threads[i].shard < |locks| && locks[threads[i].shard] == Some(i))
    && (forall sh :: 0 <= sh < |locks| && locks[sh].Some? ==>
        locks[sh].value in threads && HoldsShard(threads[locks[sh].value]) && threads[locks[sh].value].shard == sh)
  }

  predicate HoldsList(pc: Pc)
  {
    pc.MoveW? || pc.PutList? || pc.UnlockList?
  }

  predicate InFlight(pc: Pc)
  {
    pc.UnlockList? || pc.Bump?
  }

  ghost predicate RunnerOwned(runner: Option<nat>, threads: map<nat, Pc>)
  {
    && (forall i :: i in threads && InTask(threads[i]) ==> runner == Some(i))
    && (runner.Some? ==> runner.value in threads && InTask(threads[runner.value]))
  }

  ghost predicate ListOwned(listLock: Option<nat>, threads: map<nat, Pc>)
  {
    && (forall i :: i in threads && HoldsList(threads[i]) ==> listLock == Some(i))
    && (listLock.Some? ==> listLock.value in threads && HoldsList(threads[listLock.value]))
  }

  ghost predicate InFlightOwned(inflight: set<nat>, threads: map<nat, Pc>)
  {
    && (forall i :: i in threads && InFlight(threads[i]) ==> i in inflight)
    && (forall i :: i in inflight ==> i in threads && InFlight(threads[i]))
  }

  predicate HasGetters(pc: Pc)
  {
    pc.Enter? || pc.Pick? || pc.LockShard? || pc.Measure? || pc.Append?
  }

  /** What a thread remembers about the shard it works on. */
  predicate Remembers(getters: seq<Slice>, pc: Pc)
  {
    && (HasShard(pc) ==> pc.shard < |getters|)
    && (pc.Append? ==> pc.first == (getters[pc.shard].len == 0))
    && (pc.PutSpare? ==> pc.tmp == getters[pc.shard])
  }

  ghost predicate AllRemember(getters: seq<Slice>, threads: map<nat, Pc>)
  {
    forall i :: i in threads ==> Remembers(getters, threads[i])
  }

  function RunnerPc(s: State): Pc
  {
    if s.own.runner.Some? && s.own.runner.value in s.threads then s.threads[s.own.runner.value] else Done
  }

  function ListPc(s: State): Pc
  {
    if s.own.listLock.Some? && s.own.listLock.value in s.threads then s.threads[s.own.listLock.value] else Done
  }

  /** The lazy decrements: what the counter, the ring and the task's locals add up to. */
  predicate Counted(cnt: Counters, g: Ring, pc: Pc)
  {
    && g.taken <= |g.written|
    && |cnt.inflight| == |g.written| - cnt.bumped
    && cnt.trigger == cnt.bumped - cnt.committed
    && match pc
       case Head(goal, neg) =>
         && g.taken - cnt.committed == -neg && neg <= 0 && goal <= cnt.trigger
         && (if goal > 0 then goal + neg > 0 else neg == 0)
       case ReadRing(goal, neg) =>
         g.taken - cnt.committed == -neg && neg <= 0 && goal <= cnt.trigger && goal + neg > 0
       case Grab(goal, neg, _) => Midway(cnt, g, goal, neg)
       case TakeOld(goal, neg, _) => Midway(cnt, g, goal, neg)
       case PutSpare(goal, neg, _, _) => Midway(cnt, g, goal, neg)
       case SwapIn(goal, neg, _, _) => Midway(cnt, g, goal, neg)
       case Ungrab(goal, neg, _) => Midway(cnt, g, goal, neg)
       case Deal(goal, neg, _, _) => Midway(cnt, g, goal, neg)
       case Commit(goal, neg) => Midway(cnt, g, goal, neg)
       case _ => g.taken == cnt.committed
  }

  predicate Midway(cnt: Counters, g: Ring, goal: int, neg: int)
  {
    g.taken - cnt.committed == 1 - neg && neg <= 0 && goal <= cnt.trigger && goal + neg > 0
  }

  /** How far the task is with the shard it swapped out. */
  datatype Stage = Resting | Swapping(shard: nat, tmp: Slice) | Dealing(shard: nat, k: nat)

  function StageOf(pc: Pc): Stage
  {
    match pc
    case SwapIn(_, _, h, tmp) => Swapping(h, tmp)
    case Ungrab(_, _, h) => Dealing(h, 0)
    case Deal(_, _, h, k) => Dealing(h, k)
    case _ => Resting
  }

  /** The array no shard points to. */
  function Spare(m: Memory, st: Stage): nat
  {
    if st.Swapping? then st.tmp.arr else m.swap.arr
  }

  ghost predicate Unaliased(m: Memory, st: Stage)
  {
    && (forall a, b :: 0 <= a < b < |m.getters| ==> m.getters[a].arr != m.getters[b].arr)
    && (forall a :: 0 <= a < |m.getters| ==> m.getters[a].arr != Spare(m, st))
    && (st.Swapping? ==> SliceIn(m.heap, st.tmp) && st.shard < |m.getters| && m.getters[st.shard] == Slice(m.swap.arr, 0))
    && (st.Dealing? ==> st.shard < |m.getters| && st.k <= m.swap.len)
  }

  /** The getters of shard `sh` that the task has swapped out and not called yet. */
  function Undealt(m: Memory, st: Stage, sh: nat): seq<Getter>
    requires ShapedMemory(m, |m.getters|) && Unaliased(m, st)
  {
    match st
    case Swapping(h, tmp) => if h == sh then Contents(m.heap, tmp) else []
    case Dealing(h, k) => if h == sh then Contents(m.heap, m.swap)[k..] else []
    case Resting => []
  }

  ghost predicate Delivered(m: Memory, st: Stage)
    requires ShapedMemory(m, |m.getters|) && Unaliased(m, st)
  {
    !m.failed ==>
      forall sh :: 0 <= sh < |m.getters| ==>
        m.accepted[sh] == m.called[sh] + Undealt(m, st, sh) + Contents(m.heap, m.getters[sh])
  }

  /** Somebody will look at the counter again. */
  ghost predicate Watched(s: State)
  {
    s.cnt.trigger > 0 && s.own.runner.None? ==>
      exists i :: i in s.threads && Looks(s.threads[i])
  }

  predicate Looks(pc: Pc)
  {
    pc.Start? || pc.Recheck?
  }

  ghost predicate OwnersInv(s: State)
  {
    && LocksOwned(s.own.locks, s.threads)
    && RunnerOwned(s.own.runner, s.threads) && ListOwned(s.own.listLock, s.threads)
    && InFlightOwned(s.cnt.inflight, s.threads)
    && (0 < s.cnt.runNum <==> s.own.runner.Some?)
  }

  ghost predicate MemoryInv(s: State)
    requires Shaped(s)
  {
    && AllRemember(s.mem.getters, s.threads)
    && Unaliased(s.mem, StageOf(RunnerPc(s))) && Delivered(s.mem, StageOf(RunnerPc(s)))
  }

  /** What every run keeps, whatever is added. */
  ghost predicate Inv(s: State)
  {
    Shaped(s) && OwnersInv(s) && Counted(s.cnt, s.ring, RunnerPc(s)) && MemoryInv(s) && Watched(s)
  }

  // ---------------------------------------------------------------- ownership

  /** One thread moves from `pc` to `pc'`: it keeps, takes or drops a shard lock. */
  predicate LockMove(locks: seq<Option<nat>>, locks': seq<Option<nat>>, i: nat, pc: Pc, pc': Pc)
  {
    || (locks' == locks && HoldsShard(pc) == HoldsShard(pc') && (HoldsShard(pc) ==> pc.shard == pc'.shard))
    || (!HoldsShard(pc) && HoldsShard(pc') && pc'.shard < |locks| && locks[pc'.shard].None?
        && locks' == locks[pc'.shard := Some(i)])
    || (HoldsShard(pc) && !HoldsShard(pc') && pc.shard < |locks| && locks' == locks[pc.shard := None])
  }

  lemma LocksKept(locks: seq<Option<nat>>, locks': seq<Option<nat>>, threads: map<nat, Pc>, i: nat, pc': Pc)
    requires LocksOwned(locks, threads) && i in threads && LockMove(locks, locks', i, threads[i], pc')
    ensures LocksOwned(locks', threads[i := pc'])
  {
  }

  /** A word that names the only thread in a section. */
  predicate WordMove(word: Option<nat>, word': Option<nat>, i: nat, inside: bool, inside': bool)
  {
    || (word' == word && inside == inside')
    || (!inside && inside' && word.None? && word' == Some(i))
    || (inside && !inside' && word'.None?)
  }

  lemma RunnerKept(word: Option<nat>, word': Option<nat>, threads: map<nat, Pc>, i: nat, pc': Pc)
    requires RunnerOwned(word, threads) && i in threads && WordMove(word, word', i, InTask(threads[i]), InTask(pc'))
    ensures RunnerOwned(word', threads[i := pc'])
  {
  }

  lemma ListKept(word: Option<nat>, word': Option<nat>, threads: map<nat, Pc>, i: nat, pc': Pc)
    requires ListOwned(word, threads) && i in threads && WordMove(word, word', i, HoldsList(threads[i]), HoldsList(pc'))
    ensures ListOwned(word', threads[i := pc'])
  {
  }

  predicate SetMove(fl: set<nat>, fl': set<nat>, i: nat, inside: bool, inside': bool)
  {
    || (fl' == fl && inside == inside')
    || (!inside && inside' && fl' == fl + {i})
    || (inside && !inside' && fl' == fl - {i})
  }

  lemma InFlightKept(fl: set<nat>, fl': set<nat>, threads: map<nat, Pc>, i: nat, pc': Pc)
    requires InFlightOwned(fl, threads) && i in threads && SetMove(fl, fl', i, InFlight(threads[i]), InFlight(pc'))
    ensures InFlightOwned(fl', threads[i := pc'])
  {
  }

  /** What the moves of one step amount to. */
  ghost predicate Moves(s: State, s': State, i: nat)
    requires i in s.threads && i in s'.threads
  {
    var pc, pc' := s.threads[i], s'.threads[i];
    && s'.threads == s.threads[i := pc']
    && LockMove(s.own.locks, s'.own.locks, i, pc, pc')
    && WordMove(s.own.runner, s'.own.runner, i, InTask(pc), InTask(pc'))
    && WordMove(s.own.listLock, s'.own.listLock, i, HoldsList(pc), HoldsList(pc'))
    && SetMove(s.cnt.inflight, s'.cnt.inflight, i, InFlight(pc), InFlight(pc'))
    && (0 < s'.cnt.runNum <==> s'.own.runner.Some?)
  }

  /** What the step of thread `i` relies on. */
  predicate Ready(s: State, i: nat, c: Choice)
  {
    && Enabled(s, i, c) && Remembers(s.mem.getters, s.threads[i])
    && (0 < s.cnt.runNum <==> s.own.runner.Some?)
  }

  /** The step leaves slices, announcements and ring alone. */
  predicate Quiet(s: State, s': State, i: nat)
    requires i in s.threads && i in s'.threads
  {
    && s'.threads == s.threads[i := s'.threads[i]]
    && s'.size == s.size && s'.mem == s.mem && s'.ring == s.ring
    && s'.own.tokens == s.own.tokens && |s'.own.locks| == |s.own.locks|
    && Remembers(s.mem.getters, s'.threads[i])
    && !s.threads[i].PutList? && !s'.threads[i].PutList?
    && Carries(s.threads[i]) == Carries(s'.threads[i]) && (Carries(s.threads[i]) ==> s.threads[i].shard == s'.threads[i].shard)
    && (HasGetters(s'.threads[i]) ==> HasGetters(s.threads[i]) && s'.threads[i].gts == s.threads[i].gts)
  }

  /** ... and is taken by another thread than the task. */
  predicate Aside(s: State, s': State, i: nat)
    requires i in s.threads && i in s'.threads
  {
    Quiet(s, s', i) && !InTask(s.threads[i]) && !InTask(s'.threads[i]) && s'.cnt == s.cnt.(runNum := s'.cnt.runNum)
  }

  /** ... or by the task, which carries the counting facts along. */
  predicate Along(s: State, s': State, i: nat)
    requires i in s.threads && i in s'.threads
  {
    var pc, pc' := s.threads[i], s'.threads[i];
    && Quiet(s, s', i) && InTask(pc)
    && !pc.ReadRing? && !pc'.ReadRing? && StageOf(pc) == StageOf(pc')
    && (Counted(s.cnt, s.ring, pc) ==> Counted(s'.cnt, s'.ring, if InTask(pc') then pc' else Done))
  }

  lemma EnterMoves(s: State, i: nat, c: Choice)
    requires Ready(s, i, c) && (s.threads[i].Enter? || s.threads[i].Pick? || s.threads[i].LockShard?)
    ensures var s' := AddStep(s, i, c); Moves(s, s', i) && Aside(s, s', i)
  {
  }

  lemma MeasureMoves(s: State, i: nat, c: Choice)
    requires Ready(s, i, c) && (s.threads[i].Measure? || s.threads[i].UnlockShard?)
    ensures var s' := AddStep(s, i, c); Moves(s, s', i) && Aside(s, s', i)
  {
  }

  lemma AppendMoves(s: State, i: nat, c: Choice)
    requires Ready(s, i, c) && s.threads[i].Append?
    ensures var s' := AddStep(s, i, c); Moves(s, s', i)
  {
  }

  lemma TriggerMoves(s: State, i: nat, c: Choice)
    requires Ready(s, i, c) && (s.threads[i].LockList? || s.threads[i].UnlockList?)
    ensures var s' := TriggerStep(s, i, c); Moves(s, s', i) && Aside(s, s', i)
  {
  }

  lemma PutMoves(s: State, i: nat, c: Choice)
    requires Ready(s, i, c) && (s.threads[i].MoveW? || s.threads[i].PutList? || s.threads[i].Bump?)
    ensures var s' := TriggerStep(s, i, c); Moves(s, s', i)
  {
  }

  lemma LockMoves(s: State, i: nat, c: Choice)
    requires Ready(s, i, c) && (s.threads[i].Grab? || s.threads[i].TakeOld? || s.threads[i].Ungrab?)
    ensures var s' := SwapStep(s, i, c); Moves(s, s', i) && Along(s, s', i)
  {
  }

  lemma SwapMoves(s: State, i: nat, c: Choice)
    requires Ready(s, i, c) && (s.threads[i].ReadRing? || s.threads[i].PutSpare? || s.threads[i].SwapIn?)
    ensures var s' := SwapStep(s, i, c); Moves(s, s', i)
  {
  }

  lemma LoopMoves(s: State, i: nat, c: Choice)
    requires Ready(s, i, c) && (s.threads[i].Head? || s.threads[i].Deal?)
    ensures var s' := TaskStep(s, i, c); Moves(s, s', i)
  {
  }

  lemma CountMoves(s: State, i: nat, c: Choice)
    requires Ready(s, i, c) && (s.threads[i].Load? || s.threads[i].Commit?)
    ensures var s' := TaskStep(s, i, c); Moves(s, s', i) && Along(s, s', i)
  {
  }

  lemma QuitMoves(s: State, i: nat, c: Choice)
    requires Ready(s, i, c) && (s.threads[i].Flush? || s.threads[i].Reset?)
    ensures var s' := TaskStep(s, i, c); Moves(s, s', i) && Along(s, s', i)
  {
  }

  lemma AgainMoves(s: State, i: nat, c: Choice)
    requires Ready(s, i, c) && (s.threads[i].Recheck? || s.threads[i].FinishClose?)
    ensures var s' := TaskStep(s, i, c); Moves(s, s', i) && Aside(s, s', i)
  {
  }

  lemma CloseMoves(s: State, i: nat, c: Choice)
    requires Ready(s, i, c) && (s.threads[i].CloseCas? || s.threads[i].CloseLoad?)
    ensures var s' := CloseStep(s, i, c); Moves(s, s', i) && Aside(s, s', i)
  {
  }

  lemma ClosingMoves(s: State, i: nat, c: Choice)
    requires Ready(s, i, c) && (s.threads[i].CloseTrigger? || s.threads[i].CloseStore?)
    ensures var s' := CloseStep(s, i, c); Moves(s, s', i) && Aside(s, s', i)
  {
  }

  lemma OwnersKept(s: State, s': State, i: nat)
    requires OwnersInv(s) && i in s.threads && i in s'.threads && Moves(s, s', i)
    ensures OwnersInv(s')
  {
    var pc' := s'.threads[i];
    LocksKept(s.own.locks, s'.own.locks, s.threads, i, pc');
    RunnerKept(s.own.runner, s'.own.runner, s.threads, i, pc');
    ListKept(s.own.listLock, s'.own.listLock, s.threads, i, pc');
    InFlightKept(s.cnt.inflight, s'.cnt.inflight, s.threads, i, pc');
  }

  // ---------------------------------------------------------------- the memory

  /** An append leaves every slice over another array as it was. */
  lemma AppendFrame(m: Memory, sh: nat, gts: seq<Getter>, pad: seq<Getter>, sl: Slice)
    requires sh < |m.getters| == |m.accepted| && SliceIn(m.heap, m.getters[sh])
    requires SliceIn(m.heap, sl) && sl.arr != m.getters[sh].arr
    ensures var m' := AppendTo(m, sh, gts, pad);
            SliceIn(m'.heap, sl) && Contents(m'.heap, sl) == Contents(m.heap, sl) && sl.arr != m'.getters[sh].arr
  {
  }

  lemma AppendOwn(m: Memory, sh: nat, gts: seq<Getter>, pad: seq<Getter>)
    requires sh < |m.getters| == |m.accepted| && SliceIn(m.heap, m.getters[sh])
    ensures var m' := AppendTo(m, sh, gts, pad);
            SliceIn(m'.heap, m'.getters[sh])
            && Contents(m'.heap, m'.getters[sh]) == Contents(m.heap, m.getters[sh]) + gts
  {
  }

  lemma MemoryAppendShape(m: Memory, st: Stage, sh: nat, gts: seq<Getter>, pad: seq<Getter>)
    requires ShapedMemory(m, |m.getters|) && Unaliased(m, st) && sh < |m.getters| && (st.Swapping? ==> st.shard != sh)
    ensures var m' := AppendTo(m, sh, gts, pad);
            && ShapedMemory(m', |m.getters|) && Unaliased(m', st)
            && m.swap.arr != m.getters[sh].arr && m'.swap == m.swap
  {
    var m' := AppendTo(m, sh, gts, pad);
    AppendOwn(m, sh, gts, pad);
    forall h | 0 <= h < |m.getters| && h != sh
      ensures SliceIn(m'.heap, m'.getters[h]) && m'.getters[h].arr != m'.getters[sh].arr
    {
      AppendFrame(m, sh, gts, pad, m.getters[h]);
    }
    assert m.swap.arr != m.getters[sh].arr by {
      if st.Swapping? { assert m.getters[st.shard].arr == m.swap.arr; }
    }
    AppendFrame(m, sh, gts, pad, m.swap);
    if st.Swapping? { AppendFrame(m, sh, gts, pad, st.tmp); }
  }

  lemma MemoryAppend(m: Memory, st: Stage, sh: nat, gts: seq<Getter>, pad: seq<Getter>)
    requires ShapedMemory(m, |m.getters|) && Unaliased(m, st) && Delivered(m, st)
    requires sh < |m.getters| && (st.Swapping? ==> st.shard != sh)
    ensures var m' := AppendTo(m, sh, gts, pad);
            ShapedMemory(m', |m.getters|) && Unaliased(m', st) && Delivered(m', st)
  {
    var m' := AppendTo(m, sh, gts, pad);
    MemoryAppendShape(m, st, sh, gts, pad);
    forall h | 0 <= h < |m.getters| && !m.failed
      ensures m'.accepted[h] == m'.called[h] + Undealt(m', st, h) + Contents(m'.heap, m'.getters[h])
    {
      AppendFrame(m, sh, gts, pad, m.swap);
      if st.Swapping? { AppendFrame(m, sh, gts, pad, st.tmp); }
      assert Undealt(m', st, h) == Undealt(m, st, h);
      if h == sh {
        AppendOwn(m, sh, gts, pad);
      } else {
        AppendFrame(m, sh, gts, pad, m.getters[h]);
      }
    }
  }

  lemma MemoryPutSpare(m: Memory, sh: nat)
    requires ShapedMemory(m, |m.getters|) && Unaliased(m, Resting) && Delivered(m, Resting) && sh < |m.getters|
    ensures var m' := m.(getters := m.getters[sh := Slice(m.swap.arr, 0)]);
            var st := Swapping(sh, m.getters[sh]);
            ShapedMemory(m', |m.getters|) && Unaliased(m', st) && Delivered(m', st)
  {
  }

  lemma MemorySwapIn(m: Memory, sh: nat, tmp: Slice)
    requires ShapedMemory(m, |m.getters|) && Unaliased(m, Swapping(sh, tmp)) && Delivered(m, Swapping(sh, tmp))
    ensures var m' := m.(swap := tmp);
            ShapedMemory(m', |m.getters|) && Unaliased(m', Dealing(sh, 0)) && Delivered(m', Dealing(sh, 0))
  {
  }

  lemma MemoryCall(m: Memory, sh: nat, k: nat, err: bool)
    requires ShapedMemory(m, |m.getters|) && Unaliased(m, Dealing(sh, k)) && Delivered(m, Dealing(sh, k))
    requires k < m.swap.len
    ensures var m' := CallOne(m, sh, k, err);
            var st := if err then Resting else Dealing(sh, k + 1);
            ShapedMemory(m', |m.getters|) && Unaliased(m', st) && Delivered(m', st)
  {
    var q := Contents(m.heap, m.swap);
    assert q[k..] == [q[k]] + q[k + 1..];
  }

  lemma MemoryDealt(m: Memory, sh: nat, k: nat)
    requires ShapedMemory(m, |m.getters|) && Unaliased(m, Dealing(sh, k)) && Delivered(m, Dealing(sh, k))
    requires k >= m.swap.len
    ensures Unaliased(m, Resting) && Delivered(m, Resting)
  {
  }

  /** A thread that remembers a shard's length holds its lock, so nobody else changes it. */
  lemma RememberKept(getters: seq<Slice>, sl: Slice, locks: seq<Option<nat>>, threads: map<nat, Pc>, i: nat, pc': Pc)
    requires AllRemember(getters, threads) && LocksOwned(locks, threads) && i in threads
    requires HoldsShard(threads[i]) && threads[i].shard < |getters|
    requires Remembers(getters[threads[i].shard := sl], pc')
    ensures AllRemember(getters[threads[i].shard := sl], threads[i := pc'])
  {
  }

  // ---------------------------------------------------------------- one step of each kind

  /** Where the elected task and the holder of the list mutex stand after a step. */
  lemma PcsAfter(s: State, s': State, i: nat)
    requires OwnersInv(s) && i in s.threads && i in s'.threads && Moves(s, s', i)
    ensures OwnersInv(s')
    ensures var pc, pc' := s.threads[i], s'.threads[i];
            && (InTask(pc) ==> RunnerPc(s) == pc)
            && (InTask(pc') ==> RunnerPc(s') == pc')
            && (!InTask(pc) && !InTask(pc') ==> RunnerPc(s') == RunnerPc(s))
            && (InTask(pc) && !InTask(pc') ==> RunnerPc(s') == Done)
            && (HoldsList(pc) ==> ListPc(s) == pc)
            && (HoldsList(pc') ==> ListPc(s') == pc')
            && (!HoldsList(pc) && !HoldsList(pc') ==> ListPc(s') == ListPc(s))
            && (HoldsList(pc) && !HoldsList(pc') ==> ListPc(s') == Done)
            && (!HoldsList(pc) && HoldsList(pc') ==> ListPc(s) == Done)
  {
    OwnersKept(s, s', i);
  }

  /** The facts a step keeps besides ownership. */
  ghost predicate Rest(s: State)
  {
    Shaped(s) && Counted(s.cnt, s.ring, RunnerPc(s)) && MemoryInv(s)
  }

  lemma AsideKept(s: State, s': State, i: nat)
    requires Rest(s) && OwnersInv(s) && i in s.threads && i in s'.threads && Moves(s, s', i) && Aside(s, s', i)
    ensures Rest(s') && OwnersInv(s')
  {
    hide Moves, OwnersInv;
    PcsAfter(s, s', i);
  }

  lemma AlongKept(s: State, s': State, i: nat)
    requires Rest(s) && OwnersInv(s) && i in s.threads && i in s'.threads && Moves(s, s', i) && Along(s, s', i)
    ensures Rest(s') && OwnersInv(s')
  {
    hide Moves, OwnersInv;
    PcsAfter(s, s', i);
  }

  lemma AppendKept(s: State, i: nat, c: Choice)
    requires Rest(s) && OwnersInv(s) && Ready(s, i, c) && s.threads[i].Append?
    ensures Rest(AddStep(s, i, c)) && OwnersInv(AddStep(s, i, c))
  {
    hide Moves, Unaliased, Delivered;
    var s' := AddStep(s, i, c);
    var pc := s.threads[i];
    AppendMoves(s, i, c);
    PcsAfter(s, s', i);
    var sl := s'.mem.getters[pc.shard];
    assert StageOf(RunnerPc(s)).Swapping? ==> StageOf(RunnerPc(s)).shard != pc.shard;
    MemoryAppend(s.mem, StageOf(RunnerPc(s)), pc.shard, pc.gts, c.pad);
    RememberKept(s.mem.getters, sl, s.own.locks, s.threads, i, s'.threads[i]);
  }

  lemma BumpKept(s: State, i: nat, c: Choice)
    requires Rest(s) && OwnersInv(s) && Ready(s, i, c) && s.threads[i].Bump?
    ensures Rest(TriggerStep(s, i, c)) && OwnersInv(TriggerStep(s, i, c))
  {
    hide Moves, Unaliased, Delivered;
    var s' := TriggerStep(s, i, c);
    PutMoves(s, i, c);
    PcsAfter(s, s', i);
  }

  lemma MoveWKept(s: State, i: nat, c: Choice)
    requires Rest(s) && OwnersInv(s) && Ready(s, i, c) && s.threads[i].MoveW?
    ensures Rest(TriggerStep(s, i, c)) && OwnersInv(TriggerStep(s, i, c))
  {
    hide Moves, OwnersInv, Unaliased, Delivered;
    var s' := TriggerStep(s, i, c);
    PutMoves(s, i, c);
    PcsAfter(s, s', i);
  }

  lemma PutListKept(s: State, i: nat, c: Choice)
    requires Rest(s) && OwnersInv(s) && Ready(s, i, c) && s.threads[i].PutList?
    ensures Rest(TriggerStep(s, i, c)) && OwnersInv(TriggerStep(s, i, c))
  {
    hide Moves, Unaliased, Delivered, LocksOwned, RunnerOwned, ListOwned;
    var s' := TriggerStep(s, i, c);
    PutMoves(s, i, c);
    PcsAfter(s, s', i);
  }

  lemma ReadRingKept(s: State, i: nat, c: Choice)
    requires Rest(s) && OwnersInv(s) && Ready(s, i, c) && s.threads[i].ReadRing?
    ensures Rest(SwapStep(s, i, c)) && OwnersInv(SwapStep(s, i, c))
  {
    hide Moves, OwnersInv, Unaliased, Delivered;
    var s' := SwapStep(s, i, c);
    SwapMoves(s, i, c);
    PcsAfter(s, s', i);
  }

  lemma PutSpareKept(s: State, i: nat, c: Choice)
    requires Rest(s) && OwnersInv(s) && Ready(s, i, c) && s.threads[i].PutSpare?
    ensures Rest(SwapStep(s, i, c)) && OwnersInv(SwapStep(s, i, c))
  {
    hide Moves, Unaliased, Delivered;
    var s' := SwapStep(s, i, c);
    var pc := s.threads[i];
    SwapMoves(s, i, c);
    PcsAfter(s, s', i);
    var arr := s.mem.swap.arr;
    MemoryPutSpare(s.mem, pc.shard);
    RememberKept(s.mem.getters, Slice(arr, 0), s.own.locks, s.threads, i, s'.threads[i]);
  }

  lemma SwapInKept(s: State, i: nat, c: Choice)
    requires Rest(s) && OwnersInv(s) && Ready(s, i, c) && s.threads[i].SwapIn?
    ensures Rest(SwapStep(s, i, c)) && OwnersInv(SwapStep(s, i, c))
  {
    hide Moves, OwnersInv, Unaliased, Delivered;
    var s' := SwapStep(s, i, c);
    SwapMoves(s, i, c);
    PcsAfter(s, s', i);
    MemorySwapIn(s.mem, s.threads[i].shard, s.threads[i].tmp);
  }

  lemma DealKept(s: State, i: nat, c: Choice)
    requires Rest(s) && OwnersInv(s) && Ready(s, i, c) && s.threads[i].Deal?
    ensures Rest(TaskStep(s, i, c)) && OwnersInv(TaskStep(s, i, c))
  {
    hide Moves, OwnersInv, Unaliased, Delivered;
    var s' := TaskStep(s, i, c);
    var pc := s.threads[i];
    LoopMoves(s, i, c);
    PcsAfter(s, s', i);
    if pc.k < s.mem.swap.len {
      MemoryCall(s.mem, pc.shard, pc.k, c.err);
    } else {
      MemoryDealt(s.mem, pc.shard, pc.k);
    }
  }

  lemma HeadKept(s: State, i: nat, c: Choice)
    requires Rest(s) && OwnersInv(s) && Ready(s, i, c) && s.threads[i].Head?
    ensures Rest(TaskStep(s, i, c)) && OwnersInv(TaskStep(s, i, c))
  {
    hide Moves, OwnersInv, Unaliased, Delivered;
    var s' := TaskStep(s, i, c);
    LoopMoves(s, i, c);
    PcsAfter(s, s', i);
  }

  // ---------------------------------------------------------------- nobody sleeps on a trigger

  /** If the counter is up with no task, the mover looks next, or it was up before and the
      mover was not the one to look. */
  predicate Watch(s: State, s': State, i: nat)
    requires i in s.threads && i in s'.threads
  {
    s'.cnt.trigger > 0 && s'.own.runner.None? ==>
      Looks(s'.threads[i])
      || (s.cnt.trigger > 0 && s.own.runner.None? && !Looks(s.threads[i]) && s'.threads == s.threads[i := s'.threads[i]])
  }

  lemma AddWatch(s: State, i: nat, c: Choice)
    requires Ready(s, i, c) && InAdd(s.threads[i])
    ensures var s' := AddStep(s, i, c); i in s'.threads && Watch(s, s', i)
  {
    hide Moves, Remembers;
  }

  lemma TriggerWatch(s: State, i: nat, c: Choice)
    requires Ready(s, i, c) && InTriggering(s.threads[i])
    ensures var s' := TriggerStep(s, i, c); i in s'.threads && Watch(s, s', i)
  {
    hide Moves, Remembers;
  }

  lemma TaskWatch(s: State, i: nat, c: Choice)
    requires Ready(s, i, c) && (InTask(s.threads[i]) || s.threads[i].Recheck? || s.threads[i].FinishClose?)
    requires InTask(s.threads[i]) ==> s.own.runner == Some(i)
    ensures !InSwap(s.threads[i]) ==> var s' := TaskStep(s, i, c); i in s'.threads && Watch(s, s', i)
  {
    hide Moves, Remembers;
  }

  lemma SwapWatch(s: State, i: nat, c: Choice)
    requires Ready(s, i, c) && InSwap(s.threads[i]) && s.own.runner == Some(i)
    ensures var s' := SwapStep(s, i, c); i in s'.threads && Watch(s, s', i)
  {
    hide Moves, Remembers;
  }

  lemma CloseWatch(s: State, i: nat, c: Choice)
    requires Ready(s, i, c) && InClose(s.threads[i])
    ensures var s' := CloseStep(s, i, c); i in s'.threads && Watch(s, s', i)
  {
    hide Moves, Remembers;
  }

  lemma WatchedKept(s: State, s': State, i: nat)
    requires Watched(s) && i in s.threads && i in s'.threads && Watch(s, s', i)
    ensures Watched(s')
  {
    if s'.cnt.trigger > 0 && s'.own.runner.None? && !Looks(s'.threads[i]) {
      var j :| j in s.threads && Looks(s.threads[j]);
      assert j in s'.threads && s'.threads[j] == s.threads[j];
    }
  }

  // ---------------------------------------------------------------- threads that join

  /** A new goroutine: a caller of Add or Close, or the task a Start elects. */
  function Join(s: State, j: nat, pc: Pc): State
  {
    var t := s.(threads := s.threads[j := pc]);
    if pc.Load? then t.(own := s.own.(runner := Some(j)), cnt := s.cnt.(runNum := s.cnt.runNum + 1)) else t
  }

  predicate Newcomer(s: State, j: nat, pc: Pc)
  {
    j !in s.threads && (pc.CloseCas? || pc.Enter? || (pc.Load? && s.own.runner.None?))
  }

  lemma JoinLocks(s: State, j: nat, pc: Pc)
    requires OwnersInv(s) && Newcomer(s, j, pc)
    ensures var s' := Join(s, j, pc);
            && LocksOwned(s'.own.locks, s'.threads)
            && InFlightOwned(s'.cnt.inflight, s'.threads)
  {
    hide RunnerOwned, ListOwned;
  }

  lemma JoinWords(s: State, j: nat, pc: Pc)
    requires OwnersInv(s) && Newcomer(s, j, pc)
    ensures var s' := Join(s, j, pc);
            && RunnerOwned(s'.own.runner, s'.threads) && ListOwned(s'.own.listLock, s'.threads)
            && RunnerPc(s') == (if pc.Load? then pc else RunnerPc(s)) && ListPc(s') == ListPc(s)
            && (pc.Load? ==> RunnerPc(s) == Done)
  {
    hide LocksOwned, InFlightOwned;
  }

  lemma JoinKept(s: State, j: nat, pc: Pc)
    requires Rest(s) && OwnersInv(s) && Newcomer(s, j, pc)
    ensures Rest(Join(s, j, pc)) && OwnersInv(Join(s, j, pc))
  {
    hide Unaliased, Delivered, LocksOwned, InFlightOwned, RunnerOwned, ListOwned;
    JoinLocks(s, j, pc);
    JoinWords(s, j, pc);
  }

  lemma StartKept(s: State, i: nat, c: Choice)
    requires Rest(s) && OwnersInv(s) && Ready(s, i, c) && s.threads[i].Start?
    ensures Rest(TriggerStep(s, i, c)) && OwnersInv(TriggerStep(s, i, c))
  {
    hide Rest, OwnersInv;
    var s' := TriggerStep(s, i, c);
    if s.cnt.runNum > 0 {
      AsideKept(s, s', i);
    } else {
      var t := Goto(s, i, Done);
      AsideKept(s, t, i);
      JoinKept(t, c.task, Load);
      assert s' == Join(t, c.task, Load);
    }
  }

  // ---------------------------------------------------------------- every step, every run

  lemma ReadyHolds(s: State, i: nat, c: Choice)
    requires Rest(s) && OwnersInv(s) && Enabled(s, i, c)
    ensures Ready(s, i, c) && (InTask(s.threads[i]) ==> s.own.runner == Some(i))
  {
    hide LocksOwned, InFlightOwned, ListOwned, Unaliased, Delivered;
  }

  lemma AddKept(s: State, i: nat, c: Choice)
    requires Rest(s) && OwnersInv(s) && Watched(s) && Ready(s, i, c) && InAdd(s.threads[i])
    ensures var s' := AddStep(s, i, c); Rest(s') && OwnersInv(s') && Watched(s')
  {
    hide Rest, OwnersInv, Watched, Remembers, Moves, Aside, Watch, AddStep;
    var s' := AddStep(s, i, c);
    AddWatch(s, i, c);
    WatchedKept(s, s', i);
    if s.threads[i].Append? {
      AppendKept(s, i, c);
    } else {
      if s.threads[i].Measure? || s.threads[i].UnlockShard? {
        MeasureMoves(s, i, c);
      } else {
        EnterMoves(s, i, c);
      }
      AsideKept(s, s', i);
    }
  }

  lemma TriggerKept(s: State, i: nat, c: Choice)
    requires Rest(s) && OwnersInv(s) && Watched(s) && Ready(s, i, c) && InTriggering(s.threads[i])
    ensures var s' := TriggerStep(s, i, c); Rest(s') && OwnersInv(s') && Watched(s')
  {
    hide Rest, OwnersInv, Watched, Remembers, Moves, Aside, Watch, TriggerStep;
    var s' := TriggerStep(s, i, c);
    TriggerWatch(s, i, c);
    WatchedKept(s, s', i);
    if s.threads[i].MoveW? {
      MoveWKept(s, i, c);
    } else if s.threads[i].PutList? {
      PutListKept(s, i, c);
    } else if s.threads[i].Bump? {
      BumpKept(s, i, c);
    } else if s.threads[i].Start? {
      StartKept(s, i, c);
    } else {
      TriggerMoves(s, i, c);
      AsideKept(s, s', i);
    }
  }

  lemma SwapKept(s: State, i: nat, c: Choice)
    requires Rest(s) && OwnersInv(s) && Watched(s) && Ready(s, i, c) && InSwap(s.threads[i]) && s.own.runner == Some(i)
    ensures var s' := SwapStep(s, i, c); Rest(s') && OwnersInv(s') && Watched(s')
  {
    hide Rest, OwnersInv, Watched, Remembers, Moves, Along, Watch, SwapStep;
    var s' := SwapStep(s, i, c);
    SwapWatch(s, i, c);
    WatchedKept(s, s', i);
    if s.threads[i].ReadRing? {
      ReadRingKept(s, i, c);
    } else if s.threads[i].PutSpare? {
      PutSpareKept(s, i, c);
    } else if s.threads[i].SwapIn? {
      SwapInKept(s, i, c);
    } else {
      LockMoves(s, i, c);
      AlongKept(s, s', i);
    }
  }

  predicate InRest(pc: Pc)
  {
    pc.Load? || pc.Head? || pc.Deal? || pc.Commit? || pc.Flush? || pc.Reset? || pc.Recheck? || pc.FinishClose?
  }

  lemma TaskKept(s: State, i: nat, c: Choice)
    requires Rest(s) && OwnersInv(s) && Watched(s) && Ready(s, i, c) && InRest(s.threads[i])
    requires InTask(s.threads[i]) ==> s.own.runner == Some(i)
    ensures var s' := TaskStep(s, i, c); Rest(s') && OwnersInv(s') && Watched(s')
  {
    hide Rest, OwnersInv, Watched, Remembers, Moves, Aside, Along, Watch, TaskStep;
    var s' := TaskStep(s, i, c);
    TaskWatch(s, i, c);
    WatchedKept(s, s', i);
    if s.threads[i].Head? {
      HeadKept(s, i, c);
    } else if s.threads[i].Deal? {
      DealKept(s, i, c);
    } else if s.threads[i].Recheck? || s.threads[i].FinishClose? {
      AgainMoves(s, i, c);
      AsideKept(s, s', i);
    } else {
      if s.threads[i].Flush? || s.threads[i].Reset? {
        QuitMoves(s, i, c);
      } else {
        CountMoves(s, i, c);
      }
      AlongKept(s, s', i);
    }
  }

  lemma CloseKept(s: State, i: nat, c: Choice)
    requires Rest(s) && OwnersInv(s) && Watched(s) && Ready(s, i, c) && InClose(s.threads[i])
    ensures var s' := CloseStep(s, i, c); Rest(s') && OwnersInv(s') && Watched(s')
  {
    hide Rest, OwnersInv, Watched, Remembers, Moves, Aside, Watch, CloseStep;
    var s' := CloseStep(s, i, c);
    CloseWatch(s, i, c);
    WatchedKept(s, s', i);
    if s.threads[i].CloseCas? || s.threads[i].CloseLoad? {
      CloseMoves(s, i, c);
    } else {
      ClosingMoves(s, i, c);
    }
    AsideKept(s, s', i);
  }

  lemma ExecKept(s: State, i: nat, c: Choice)
    requires Inv(s) && Enabled(s, i, c)
    ensures Inv(Exec(s, i, c))
  {
    hide OwnersInv, Watched, Remembers, Counted, MemoryInv, AddStep, TriggerStep, SwapStep, CloseStep, TaskStep;
    ReadyHolds(s, i, c);
    var pc := s.threads[i];
    if InAdd(pc) {
      AddKept(s, i, c);
    } else if InTriggering(pc) {
      TriggerKept(s, i, c);
    } else if InSwap(pc) {
      SwapKept(s, i, c);
    } else if InClose(pc) {
      CloseKept(s, i, c);
    } else {
      TaskKept(s, i, c);
    }
  }

  lemma ArriveKept(s: State, s': State, empties: bool)
    requires Inv(s) && Arrive(s, s', empties)
    ensures Inv(s')
  {
    hide OwnersInv, Counted, MemoryInv;
    var i: nat, pc: Pc :| i !in s.threads && (pc.CloseCas? || (pc.Enter? && (empties || pc.gts != []))) && s' == Goto(s, i, pc);
    JoinKept(s, i, pc);
    if s.cnt.trigger > 0 && s.own.runner.None? {
      var j :| j in s.threads && Looks(s.threads[j]);
      assert j in s'.threads && Looks(s'.threads[j]);
    }
  }

  lemma InitOwners(s: State)
    requires Init(s)
    ensures OwnersInv(s) && Watched(s)
  {
  }

  lemma InitRest(s: State)
    requires Init(s)
    ensures Rest(s)
  {
    hide OwnersInv;
  }

  /** Every state of every run satisfies the invariant. */
  lemma {:induction false} RunKeepsInv(run: seq<State>, empties: bool, n: nat)
    requires IsRun(run, empties) && n < |run|
    ensures Inv(run[n])
  {
    hide OwnersInv, Counted, MemoryInv, Watched, Init, Arrive, Enabled;
    if n == 0 {
      InitOwners(run[0]);
      InitRest(run[0]);
    } else {
      RunKeepsInv(run, empties, n - 1);
      assert Next(run[n - 1], run[n - 1 + 1], empties);
      if Arrive(run[n - 1], run[n], empties) {
        ArriveKept(run[n - 1], run[n], empties);
      } else {
        var i, c :| Enabled(run[n - 1], i, c) && run[n] == Exec(run[n - 1], i, c);
        ExecKept(run[n - 1], i, c);
      }
    }
  }

  // ---------------------------------------------------------------- what callers get

  lemma ReachableInv(s: State, empties: bool)
    requires Reachable(s, empties)
    ensures Inv(s)
  {
    hide Inv;
    var run: seq<State> :| IsRun(run, empties) && s == run[|run| - 1];
    RunKeepsInv(run, empties, |run| - 1);
  }

  /** At any time, a shard's calls are the first part of what it accepted. */
  lemma CalledInAddOrder(s: State, empties: bool, sh: nat)
    requires Reachable(s, empties) && !s.mem.failed && sh < s.size
    ensures Shaped(s) && s.mem.called[sh] <= s.mem.accepted[sh]
  {
    hide Reachable, OwnersInv, Counted, Watched;
    ReachableInv(s, empties);
  }

  /** There is one consumer, and only while runNum is up. */
  lemma OneConsumer(s: State, empties: bool, i: nat, j: nat)
    requires Reachable(s, empties) && i in s.threads && j in s.threads && InTask(s.threads[i]) && InTask(s.threads[j])
    ensures i == j && s.cnt.runNum > 0
  {
    hide Reachable, Counted, MemoryInv, Watched, LocksOwned;
    ReachableInv(s, empties);
  }

  /** What the task has taken and not subtracted from the trigger yet: negNum, and the entry it is at. */
  function Owed(pc: Pc): int
  {
    if pc.Head? || pc.ReadRing? then pc.neg
    else if pc.Grab? || pc.TakeOld? || pc.PutSpare? || pc.SwapIn? || pc.Ungrab? || pc.Deal? || pc.Commit? then pc.neg - 1
    else 0
  }

  /** Wherever the task is, and if there is none: the triggers that are left after what it still has to
      subtract, and the goroutines between their entry and their trigger, are the written, unread
      entries. */
  lemma TriggersHaveEntries(s: State, empties: bool)
    requires Reachable(s, empties)
    ensures s.cnt.trigger + Owed(RunnerPc(s)) + |s.cnt.inflight| == |s.ring.written| - s.ring.taken
    ensures s.cnt.trigger + Owed(RunnerPc(s)) <= |s.ring.written| - s.ring.taken
    ensures forall i :: i in s.threads && InTask(s.threads[i]) ==> RunnerPc(s) == s.threads[i]
  {
    hide Reachable, MemoryInv, Watched, LocksOwned;
    ReachableInv(s, empties);
  }

  /** The size + 1 backing arrays in use never alias, outside the two stores of the swap. */
  lemma ArraysNeverAlias(s: State, empties: bool, a: nat, b: nat)
    requires Reachable(s, empties) && a < s.size && b < s.size
    ensures Shaped(s) && (a != b ==> s.mem.getters[a].arr != s.mem.getters[b].arr)
    ensures !RunnerPc(s).SwapIn? ==> s.mem.getters[a].arr != s.mem.swap.arr
  {
    hide Reachable, OwnersInv, Counted, Watched, Delivered;
    ReachableInv(s, empties);
  }

  /** Once every goroutine is done the counters are back at zero, so no trigger was lost when the task gave up
      its run; every entry was read, and what was accepted and not called lies in a shard. */
  lemma NothingLeftAtRest(s: State, empties: bool)
    requires Reachable(s, empties) && Quiescent(s)
    ensures s.cnt.trigger == 0 && s.cnt.runNum == 0 && s.ring.taken == |s.ring.written|
    ensures Shaped(s) && (!s.mem.failed ==> forall sh :: 0 <= sh < s.size ==>
              s.mem.accepted[sh] == s.mem.called[sh] + Contents(s.mem.heap, s.mem.getters[sh]))
  {
    hide Reachable, LocksOwned, ListOwned;
    ReachableInv(s, empties);
    assert s.own.runner.None?;
    assert s.cnt.inflight == {};
    assert s.cnt.trigger <= 0;
  }
}
