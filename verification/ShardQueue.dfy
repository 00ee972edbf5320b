/** The sharded write queue of the mux package: any number of goroutines call `Add`,
    an elected task drains the shards, and they meet in a ring of shard numbers, a
    trigger counter and a spare array that is swapped into the drained shard.

    The model is a step system.  Every load, store, compare-and-swap and append of the
    source is one step of one thread, and the threads interleave freely. */
module ShardQueue {
  import opened Prelude

  /** A getter is known by the identity its caller gave it. */
  type Getter = nat

  /** A slice header: which backing array, and how much of it is in use. */
  datatype Slice = Slice(arr: nat, len: nat)

  datatype Status = Active | Closing | Closed

  /** Where the one pending announcement of a non-empty shard is (bookkeeping). */
  datatype Token = Idle | Held(tid: nat) | Queued(pos: nat)

  datatype Pc =
    // Add
    | Enter(gts: seq<Getter>)
    | Pick(gts: seq<Getter>)
    | LockShard(gts: seq<Getter>, shard: nat)
    | Measure(gts: seq<Getter>, shard: nat)
    | Append(gts: seq<Getter>, shard: nat, first: bool)
    | UnlockShard(shard: nat, first: bool)
    // triggering
    | LockList(shard: nat)
    | MoveW(shard: nat)
    | PutList(shard: nat)
    | UnlockList
    | Bump
    // foreach
    | Start
    | Load
    | Head(goal: int, neg: int)
    | ReadRing(goal: int, neg: int)
    | Grab(goal: int, neg: int, shard: nat)
    | TakeOld(goal: int, neg: int, shard: nat)
    | PutSpare(goal: int, neg: int, shard: nat, tmp: Slice)
    | SwapIn(goal: int, neg: int, shard: nat, tmp: Slice)
    | Ungrab(goal: int, neg: int, shard: nat)
    | Deal(goal: int, neg: int, shard: nat, k: nat)
    | Commit(goal: int, neg: int)
    | Flush
    | Reset
    | Recheck
    | FinishClose
    // Close
    | CloseCas
    | CloseLoad
    | CloseTrigger
    | CloseStore
    | Done

  /** The shards' slices, the spare slice and every backing array; `accepted` and `called`
      record, shard by shard, the getters appended and the getters called so far, `failed`
      whether the connection ever refused an Append. */
  datatype Memory = Memory(getters: seq<Slice>, swap: Slice, heap: seq<seq<Getter>>,
                           accepted: seq<seq<Getter>>, called: seq<seq<Getter>>, failed: bool)

  /** The ring of triggered shards; `written` records every entry ever put, `taken` how many
      were read. */
  datatype Ring = Ring(w: nat, r: nat, list: seq<nat>, written: seq<nat>, taken: nat)

  /** The trigger and run counters; `bumped` and `committed` count what was added to and
      subtracted from the trigger, `inflight` who has put an entry but not added it yet. */
  datatype Counters = Counters(trigger: int, runNum: nat, bumped: nat, committed: int, inflight: set<nat>)

  /** Who is where: the lock words with their holders, the elected task, and for each shard
      the place of its announcement.  No step reads the identities. */
  datatype Owners = Owners(locks: seq<Option<nat>>, listLock: Option<nat>, runner: Option<nat>, tokens: seq<Token>)

  datatype State = State(size: nat, status: Status, idx: nat,
                         mem: Memory, ring: Ring, cnt: Counters, own: Owners, threads: map<nat, Pc>)

  /** What the environment decides in a step: the id of a spawned task, the tail of a
      grown backing array, and whether `Append` on the connection fails. */
  datatype Choice = Choice(task: nat, pad: seq<Getter>, err: bool)

  // ---------------------------------------------------------------- the steps

  function Goto(s: State, i: nat, pc: Pc): State
  {
    s.(threads := s.threads[i := pc])
  }

  function Contents(heap: seq<seq<Getter>>, sl: Slice): seq<Getter>
    requires sl.arr < |heap| && sl.len <= |heap[sl.arr]|
  {
    heap[sl.arr][..sl.len]
  }

  /** k % size, by repeated subtraction: see SlotIsRemainder. */
  function Slot(k: nat, size: nat): (p: nat)
    requires 0 < size
    ensures p < size
    decreases k
  {
    if k < size then k else Slot(k - size, size)
  }

  predicate SliceIn(heap: seq<seq<Getter>>, sl: Slice)
  {
    sl.arr < |heap| && sl.len <= |heap[sl.arr]|
  }

  predicate ShapedMemory(m: Memory, size: nat)
  {
    && |m.getters| == |m.accepted| == |m.called| == size
    && SliceIn(m.heap, m.swap)
    && forall sh :: 0 <= sh < size ==> SliceIn(m.heap, m.getters[sh])
  }

  predicate ShapedRing(g: Ring, size: nat)
  {
    && |g.list| == size && g.w < size && g.r < size
    && forall p :: 0 <= p < size ==> g.list[p] < size
  }

  predicate Shaped(s: State)
  {
    && 0 < s.size
    && ShapedMemory(s.mem, s.size) && ShapedRing(s.ring, s.size)
    && |s.own.locks| == |s.own.tokens| == s.size
  }

  predicate HasShard(pc: Pc)
  {
    pc.LockShard? || pc.Measure? || pc.Append? || pc.UnlockShard? || pc.LockList? || pc.MoveW? || pc.PutList?
    || pc.Grab? || pc.TakeOld? || pc.PutSpare? || pc.SwapIn? || pc.Ungrab? || pc.Deal?
  }

  /** Whether thread `i` can move.  Only the two spin locks and the list mutex block; the
      index counter is taken not to wrap. */
  predicate Enabled(s: State, i: nat, c: Choice)
  {
    && i in s.threads && Shaped(s) && (HasShard(s.threads[i]) ==> s.threads[i].shard < s.size)
    && match s.threads[i]
       case Done => false
       case Pick(_) => s.idx < MAX_INT32
       case LockShard(_, sh) => s.own.locks[sh].None?
       case LockList(_) => s.own.listLock.None?
       case Grab(_, _, sh) => s.own.locks[sh].None?
       case Start => c.task !in s.threads
       case _ => true
  }

  /** append(slice, gts...): in place when the capacity allows, else into a new array. */
  function AppendTo(m: Memory, sh: nat, gts: seq<Getter>, pad: seq<Getter>): Memory
    requires sh < |m.getters| == |m.accepted| && SliceIn(m.heap, m.getters[sh])
  {
    var sl := m.getters[sh];
    var a := m.heap[sl.arr];
    var n := m.(accepted := m.accepted[sh := m.accepted[sh] + gts]);
    if sl.len + |gts| <= |a| then
      n.(heap := m.heap[sl.arr := a[..sl.len] + gts + a[sl.len + |gts|..]],
         getters := m.getters[sh := Slice(sl.arr, sl.len + |gts|)])
    else
      n.(heap := m.heap + [a[..sl.len] + gts + pad],
         getters := m.getters[sh := Slice(|m.heap|, sl.len + |gts|)])
  }

  function CallOne(m: Memory, sh: nat, k: nat, err: bool): Memory
    requires sh < |m.called| && SliceIn(m.heap, m.swap) && k < m.swap.len
  {
    m.(called := m.called[sh := m.called[sh] + [m.heap[m.swap.arr][k]]], failed := m.failed || err)
  }

  function SetLock(o: Owners, sh: nat, v: Option<nat>): Owners
    requires sh < |o.locks|
  {
    o.(locks := o.locks[sh := v])
  }

  function SetToken(o: Owners, sh: nat, v: Token): Owners
    requires sh < |o.tokens|
  {
    o.(tokens := o.tokens[sh := v])
  }

  function AddStep(s: State, i: nat, c: Choice): State
    requires Enabled(s, i, c)
  {
    match s.threads[i]
    case Enter(gts) => Goto(s, i, if s.status == Active then Pick(gts) else Done)
    case Pick(gts) => Goto(s.(idx := s.idx + 1), i, LockShard(gts, Slot(s.idx + 1, s.size)))
    case LockShard(gts, sh) => Goto(s.(own := SetLock(s.own, sh, Some(i))), i, Measure(gts, sh))
    case Measure(gts, sh) => Goto(s, i, Append(gts, sh, s.mem.getters[sh].len == 0))
    case Append(gts, sh, first) =>
      Goto(s.(mem := AppendTo(s.mem, sh, gts, c.pad),
              own := if first then SetToken(s.own, sh, Held(i)) else s.own), i, UnlockShard(sh, first))
    case UnlockShard(sh, first) =>
      Goto(s.(own := SetLock(s.own, sh, None)), i, if first then LockList(sh) else Done)
    case _ => s
  }

  function TriggerStep(s: State, i: nat, c: Choice): State
    requires Enabled(s, i, c)
  {
    match s.threads[i]
    case LockList(sh) => Goto(s.(own := s.own.(listLock := Some(i))), i, MoveW(sh))
    case MoveW(sh) => Goto(s.(ring := s.ring.(w := Slot(s.ring.w + 1, s.size))), i, PutList(sh))
    case PutList(sh) =>
      Goto(s.(ring := s.ring.(list := s.ring.list[s.ring.w := sh], written := s.ring.written + [sh]),
              own := SetToken(s.own, sh, Queued(|s.ring.written|)),
              cnt := s.cnt.(inflight := s.cnt.inflight + {i})), i, UnlockList)
    case UnlockList => Goto(s.(own := s.own.(listLock := None)), i, Bump)
    case Bump =>
      Goto(s.(cnt := s.cnt.(trigger := s.cnt.trigger + 1, bumped := s.cnt.bumped + 1, inflight := s.cnt.inflight - {i})),
           i, if s.cnt.trigger + 1 > 1 then Done else Start)
    case Start =>
      var t := Goto(s.(cnt := s.cnt.(runNum := s.cnt.runNum + 1)), i, Done);
      if s.cnt.runNum + 1 > 1 then t else Goto(t.(own := s.own.(runner := Some(c.task))), c.task, Load)
    case _ => s
  }

  /** Take a ring entry, and swap the shard it names with the spare array. */
  function SwapStep(s: State, i: nat, c: Choice): State
    requires Enabled(s, i, c)
  {
    match s.threads[i]
    case ReadRing(goal, neg) =>
      var sh := s.ring.list[s.ring.r];
      Goto(s.(ring := s.ring.(taken := s.ring.taken + 1), own := SetToken(s.own, sh, Held(i))), i, Grab(goal, neg, sh))
    case Grab(goal, neg, sh) => Goto(s.(own := SetLock(s.own, sh, Some(i))), i, TakeOld(goal, neg, sh))
    case TakeOld(goal, neg, sh) => Goto(s, i, PutSpare(goal, neg, sh, s.mem.getters[sh]))
    case PutSpare(goal, neg, sh, tmp) =>
      Goto(s.(mem := s.mem.(getters := s.mem.getters[sh := Slice(s.mem.swap.arr, 0)]),
              own := SetToken(s.own, sh, Idle)), i, SwapIn(goal, neg, sh, tmp))
    case SwapIn(goal, neg, sh, tmp) => Goto(s.(mem := s.mem.(swap := tmp)), i, Ungrab(goal, neg, sh))
    case Ungrab(goal, neg, sh) => Goto(s.(own := SetLock(s.own, sh, None)), i, Deal(goal, neg, sh, 0))
    case _ => s
  }

  function TaskStep(s: State, i: nat, c: Choice): State
    requires Enabled(s, i, c)
  {
    match s.threads[i]
    case Load => Goto(s, i, Head(s.cnt.trigger, 0))
    case Head(goal, neg) =>
      if goal > 0 then Goto(s.(ring := s.ring.(r := Slot(s.ring.r + 1, s.size))), i, ReadRing(goal, neg))
      else Goto(s, i, Flush)
    case Deal(goal, neg, sh, k) =>
      if k >= s.mem.swap.len then Goto(s, i, Commit(goal, neg))
      else Goto(s.(mem := CallOne(s.mem, sh, k, c.err)), i, if c.err then Commit(goal, neg) else Deal(goal, neg, sh, k + 1))
    case Commit(goal, neg) =>
      var n := neg - 1;
      if goal + n == 0 then
        Goto(s.(cnt := s.cnt.(trigger := s.cnt.trigger + n, committed := s.cnt.committed - n)), i, Head(s.cnt.trigger + n, 0))
      else Goto(s, i, Head(goal, n))
    case Flush => Goto(s, i, Reset)
    case Reset => Goto(s.(cnt := s.cnt.(runNum := 0), own := s.own.(runner := None)), i, Recheck)
    case Recheck => Goto(s, i, if s.cnt.trigger > 0 then Start else FinishClose)
    case FinishClose => Goto(s.(status := if s.status == Closing then Closed else s.status), i, Done)
    case _ => s
  }

  function CloseStep(s: State, i: nat, c: Choice): State
    requires Enabled(s, i, c)
  {
    match s.threads[i]
    case CloseCas => if s.status == Active then Goto(s.(status := Closing), i, CloseLoad) else Goto(s, i, Done)
    case CloseLoad => Goto(s, i, if s.status == Closed then Done else CloseTrigger)
    case CloseTrigger => Goto(s, i, if s.cnt.trigger == 0 then CloseStore else CloseLoad)
    case CloseStore => Goto(s.(status := Closed), i, Done)
    case _ => s
  }

  predicate InAdd(pc: Pc)
  {
    pc.Enter? || pc.Pick? || pc.LockShard? || pc.Measure? || pc.Append? || pc.UnlockShard?
  }

  predicate InTriggering(pc: Pc)
  {
    pc.LockList? || pc.MoveW? || pc.PutList? || pc.UnlockList? || pc.Bump? || pc.Start?
  }

  predicate InSwap(pc: Pc)
  {
    pc.ReadRing? || pc.Grab? || pc.TakeOld? || pc.PutSpare? || pc.SwapIn? || pc.Ungrab?
  }

  predicate InClose(pc: Pc)
  {
    pc.CloseCas? || pc.CloseLoad? || pc.CloseTrigger? || pc.CloseStore?
  }

  /** One atomic step of thread `i`. */
  function Exec(s: State, i: nat, c: Choice): State
    requires Enabled(s, i, c)
  {
    var pc := s.threads[i];
    if InAdd(pc) then AddStep(s, i, c)
    else if InTriggering(pc) then TriggerStep(s, i, c)
    else if InSwap(pc) then SwapStep(s, i, c)
    else if InClose(pc) then CloseStep(s, i, c)
    else TaskStep(s, i, c)
  }

  /** A goroutine enters Close, or Add; with an empty argument list only if `empties`. */
  ghost predicate Arrive(s: State, s': State, empties: bool)
  {
    exists i: nat, pc: Pc ::
      i !in s.threads && (pc.CloseCas? || (pc.Enter? && (empties || pc.gts != []))) && s' == Goto(s, i, pc)
  }

  ghost predicate Next(s: State, s': State, empties: bool)
  {
    Arrive(s, s', empties) || exists i, c :: Enabled(s, i, c) && s' == Exec(s, i, c)
  }

  /** NewShardQueue: every slice is empty over an array of its own. */
  ghost predicate Init(s: State)
  {
    && Shaped(s)
    && s.status == Active && s.idx == 0
    && (forall sh :: 0 <= sh < s.size ==>
        s.mem.getters[sh] == Slice(sh, 0) && s.mem.accepted[sh] == [] && s.mem.called[sh] == [])
    && s.mem.swap == Slice(s.size, 0) && !s.mem.failed
    && s.ring.w == 0 && s.ring.r == 0 && s.ring.written == [] && s.ring.taken == 0
    && s.cnt == Counters(0, 0, 0, 0, {})
    && s.own.listLock == None && s.own.runner == None
    && (forall sh :: 0 <= sh < s.size ==> s.own.locks[sh] == None && s.own.tokens[sh] == Idle)
    && s.threads == map[]
  }

  ghost predicate IsRun(run: seq<State>, empties: bool)
  {
    && 0 < |run| && Init(run[0])
    && forall k :: 0 <= k < |run| - 1 ==> Next(run[k], run[k + 1], empties)
  }

  ghost predicate Reachable(s: State, empties: bool)
  {
    exists run: seq<State> :: IsRun(run, empties) && s == run[|run| - 1]
  }

  /** No goroutine has anything left to do. */
  ghost predicate Quiescent(s: State)
  {
    forall i :: i in s.threads ==> s.threads[i].Done?
  }
}
