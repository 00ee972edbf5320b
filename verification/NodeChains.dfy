/** Link buffers as chains of nodes that are shared, moved and given back: Slice, slice of slice, Append,
    MallocAck, Release and Close, on any number of buffers by any number of goroutines.  Each
    node.Release() of a walk is a call, with the call on the origin inside it, and every atomic
    addition is a step of its own.  Bytes are not modelled: a reader may stop anywhere. */
module NodeChains {
  import opened Prelude
  import opened NodeCounts

  /** What the goroutine that reads a buffer is doing.  Making: the buffer is the slice under
      construction.  Walk: in the loop that gives nodes back; `calls` are the calls of
      node.Release() it is in, the innermost last, and `back` says that the call on the origin has
      returned. */
  datatype Job = Idle | Making | Slicing(to: nat) | Walk(calls: seq<nat>, back: bool)

  /** The nodes from head on, and where read, flush and write point; nil is behind the last node.
      `appended`: another buffer was appended and not flushed yet. */
  datatype Buffer = Buffer(chain: seq<nat>, read: nat, flush: nat, write: nat, appended: bool, job: Job)

  /** `cut`: nodes behind a write node that were cut off when something else was linked there. */
  datatype State = State(nodes: Nodes, bufs: map<nat, Buffer>, cut: set<nat>)

  datatype Step =
    | Make(b: nat, x: nat, readonly: bool)    // NewLinkBuffer
    | Grow(b: nat, x: nat, readonly: bool)    // a new node is linked behind write
    | Forward(b: nat)                         // growth finds a node behind write
    | Submit(b: nat)                          // Flush, bookAck
    | Ack(b: nat, to: nat)                    // MallocAck
    | Advance(b: nat, to: nat)                // read moves on
    | Mark(b: nat)                            // nocopy read
    | Slice(b: nat, p: nat)
    | Refer(b: nat, y: nat)
    | EndSlice(b: nat, release: bool)
    | Release(b: nat)
    | Close(b: nat)
    | Append(b: nat, o: nat)                  // WriteBuffer
    | Next(b: nat)                            // the walk takes the next node and calls Release
    | Call(b: nat)                            // which calls Release on its origin
    | Dec(b: nat)                             // AddInt32(&node.refer, -1)
    | Stop(b: nat)

  function Elements(s: seq<nat>): set<nat>
  {
    set x | x in s
  }

  function SetBuf(s: State, b: nat, buf: Buffer): State
  {
    s.(bufs := s.bufs[b := buf])
  }

  /** The node of the innermost call. */
  function Top(calls: seq<nat>): nat
    requires calls != []
  {
    calls[|calls| - 1]
  }

  /** MallocAck gives the nodes behind write a count of one. */
  function Reset(nodes: Nodes, xs: seq<nat>): Nodes
  {
    map x | x in nodes :: if x in xs then nodes[x].(refer := 1) else nodes[x]
  }

  // ---------------------------------------------------------------- when a step can be taken

  predicate Reading(j: Job)
  {
    j.Idle? || j.Slicing?
  }

  predicate Walking(j: Job)
  {
    j.Walk? && j.calls == []
  }

  /** The writer of an input or output buffer may be another goroutine than its reader. */
  predicate Writable(buf: Buffer)
  {
    !buf.job.Making? && buf.write < |buf.chain|
  }

  predicate Pointers(buf: Buffer)
  {
    buf.read <= buf.flush <= buf.write <= |buf.chain|
  }

  predicate Enabled(s: State, st: Step)
  {
    if st.Make? then st.b !in s.bufs && st.x !in s.nodes
    else
      && st.b in s.bufs && var buf := s.bufs[st.b]; Pointers(buf) && match st
         case Grow(_, x, _) => Writable(buf) && x !in s.nodes
         case Forward(_) => Writable(buf) && buf.write + 1 < |buf.chain|
         case Submit(_) => Writable(buf)
         case Ack(_, to) => Writable(buf) && !buf.appended && buf.flush <= to <= buf.write
         case Advance(_, to) => Reading(buf.job) && buf.read <= to <= buf.flush
         case Mark(_) => Reading(buf.job) && buf.read < |buf.chain| && buf.chain[buf.read] in s.nodes && !s.nodes[buf.chain[buf.read]].readonly
         case Slice(_, p) => buf.job.Idle? && p !in s.bufs
         case Refer(_, y) =>
           && buf.job.Slicing? && buf.job.to in s.bufs && s.bufs[buf.job.to].job.Making?
           && buf.read < |buf.chain| && buf.chain[buf.read] in s.nodes && Root(s.nodes, buf.chain[buf.read]) in s.nodes && y !in s.nodes
         case EndSlice(_, _) => buf.job.Slicing? && buf.job.to in s.bufs && s.bufs[buf.job.to].job.Making? && s.bufs[buf.job.to].chain != []
         case Release(_) => buf.job.Idle?
         case Close(_) => buf.job.Idle?
         case Append(b, o) => Writable(buf) && o != b && o in s.bufs && Pointers(s.bufs[o]) && s.bufs[o].job.Idle? && Writable(s.bufs[o])
         case Next(_) => Walking(buf.job) && 0 < buf.read && buf.chain[0] in s.nodes
         case Call(_) => buf.job.Walk? && buf.job.calls != [] && !buf.job.back && Top(buf.job.calls) in s.nodes && s.nodes[Top(buf.job.calls)].origin.Some?
         case Dec(_) => buf.job.Walk? && buf.job.calls != [] && Top(buf.job.calls) in s.nodes && (buf.job.back || s.nodes[Top(buf.job.calls)].origin.None?)
         case Stop(_) => Walking(buf.job) && buf.read == 0
         case Make(_, _, _) => false
  }

  // ---------------------------------------------------------------- what it does

  /** Behind write comes `more`; what was there is cut off. */
  function Relinked(buf: Buffer, more: seq<nat>): Buffer
    requires buf.write < |buf.chain|
  {
    buf.(chain := buf.chain[..buf.write + 1] + more, write := buf.write + |more|)
  }

  function CutOff(buf: Buffer): seq<nat>
    requires buf.write < |buf.chain|
  {
    buf.chain[buf.write + 1..]
  }

  /** Everything is to be given back. */
  function Emptying(chain: seq<nat>): Buffer
  {
    Buffer(chain, |chain|, |chain|, |chain|, false, Walk([], false))
  }

  function WriterStep(s: State, st: Step): State
    requires Enabled(s, st)
  {
    match st
    case Make(b, x, readonly) =>
      SetBuf(s, b, Buffer([x], 0, 0, 0, false, Idle)).(nodes := s.nodes[x := Made(readonly)])
    case Grow(b, x, readonly) =>
      SetBuf(s, b, Relinked(s.bufs[b], [x])).(nodes := s.nodes[x := Made(readonly)], cut := s.cut + Elements(CutOff(s.bufs[b])))
    case Forward(b) => SetBuf(s, b, s.bufs[b].(write := s.bufs[b].write + 1))
    case Submit(b) => SetBuf(s, b, s.bufs[b].(flush := s.bufs[b].write, appended := false))
    case Ack(b, to) => SetBuf(s, b, s.bufs[b].(write := to)).(nodes := Reset(s.nodes, s.bufs[b].chain[to + 1..]))
    case Append(b, o) =>
      var buf, other := s.bufs[b], s.bufs[o];
      SetBuf(SetBuf(s, o, Emptying(other.chain[..other.read] + other.chain[other.write + 1..])),
             b, Relinked(buf, other.chain[other.read..other.write + 1]).(appended := true))
        .(cut := s.cut + Elements(CutOff(buf)))
    case _ => s
  }

  function ReaderStep(s: State, st: Step): State
    requires Enabled(s, st)
  {
    match st
    case Advance(b, to) => SetBuf(s, b, s.bufs[b].(read := to))
    case Mark(b) =>
      var x := s.bufs[b].chain[s.bufs[b].read];
      s.(nodes := s.nodes[x := s.nodes[x].(nocopy := true)])
    case Slice(b, p) => SetBuf(SetBuf(s, b, s.bufs[b].(job := Slicing(p))), p, Buffer([], 0, 0, 0, false, Making))
    case Refer(b, y) =>
      var buf := s.bufs[b];
      var p := buf.job.to;
      var n := |s.bufs[p].chain| + 1;
      SetBuf(s, p, s.bufs[p].(chain := s.bufs[p].chain + [y], flush := n, write := n)).(nodes := Referred(s.nodes, buf.chain[buf.read], y))
    case EndSlice(b, release) =>
      var p := s.bufs[b].job.to;
      SetBuf(SetBuf(s, p, s.bufs[p].(job := Idle)), b, s.bufs[b].(job := if release then Walk([], false) else Idle))
    case Release(b) => SetBuf(s, b, s.bufs[b].(job := Walk([], false)))
    case Close(b) => SetBuf(s, b, Emptying(s.bufs[b].chain))
    case _ => s
  }

  function WalkStep(s: State, st: Step): State
    requires Enabled(s, st)
  {
    match st
    case Next(b) =>
      var buf := s.bufs[b];
      var x := buf.chain[0];
      SetBuf(s, b, Buffer(buf.chain[1..], buf.read - 1, buf.flush - 1, buf.write - 1, buf.appended, Walk([x], false)))
        .(nodes := s.nodes[x := s.nodes[x].(released := s.nodes[x].released + 1)])
    case Call(b) =>
      var j := s.bufs[b].job;
      SetBuf(s, b, s.bufs[b].(job := Walk(j.calls + [s.nodes[Top(j.calls)].origin.value], false)))
    case Dec(b) =>
      var calls := s.bufs[b].job.calls;
      var x, outer := Top(calls), calls[..|calls| - 1];
      SetBuf(s, b, s.bufs[b].(job := Walk(outer, outer != []))).(nodes := s.nodes[x := NodeCounts.Drop(s.nodes[x])])
    case Stop(b) => SetBuf(s, b, s.bufs[b].(job := Idle))
    case _ => s
  }

  predicate ByWriter(st: Step) { st.Make? || st.Grow? || st.Forward? || st.Submit? || st.Ack? || st.Append? }

  predicate ByWalk(st: Step) { st.Next? || st.Call? || st.Dec? || st.Stop? }

  function Exec(s: State, st: Step): State
    requires Enabled(s, st)
  {
    if ByWriter(st) then WriterStep(s, st) else if ByWalk(st) then WalkStep(s, st) else ReaderStep(s, st)
  }

  ghost predicate Init(s: State)
  {
    s == State(map[], map[], {})
  }

  ghost predicate Steps(s: State, s': State)
  {
    exists st :: Enabled(s, st) && s' == Exec(s, st)
  }

  ghost predicate IsRun(run: seq<State>)
  {
    && 0 < |run| && Init(run[0])
    && forall k :: 0 <= k < |run| - 1 ==> Steps(run[k], run[k + 1])
  }

  ghost predicate Reachable(s: State)
  {
    exists run: seq<State> :: IsRun(run) && s == run[|run| - 1]
  }
}
