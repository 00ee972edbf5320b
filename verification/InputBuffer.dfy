/** The input buffer of a connection under concurrency: the poller books and acks memory at the
    tail while the user reads at the head.  Every load and store of a shared field is one step;
    the two sides interleave freely.  Only `length` is added to atomically, and only the operator
    lock keeps resetTail away from a booking. */
module InputBuffer {
  import opened LinkChain

  /** A node: the array, its readable length, the read and the write offset.  `base` records how many
      bytes were acked before this node. */
  datatype Node = Node(base: nat, text: seq<byte>, len: nat, off: nat, malloc: nat)

  datatype Poller =
    | Away
    | Booking                       // do() succeeded
    | Growing                       // write.next was set
    | Reserving                     // the write node has room, or is new
    | Reading(size: nat)            // write.malloc was moved
    | Sizing(data: seq<byte>)       // the kernel stored `data`
    | Sealing(data: seq<byte>)      // write.malloc = n + len
    | Flushing(data: seq<byte>)     // write.buf = buf[:malloc]
    | Counting(data: seq<byte>)     // flush = write
    | Leaving                       // length was added to

  datatype Op = Next | Skip | Peek

  datatype User =
    | Idle
    | Ask(op: Op, n: nat)
    | Claim(op: Op, n: nat)
    | Probe(op: Op, n: nat)                                   // isSingleNode
    | Probed(op: Op, n: nat, l: nat)
    | Hop(op: Op, n: nat)
    | TakeOne(op: Op, n: nat)
    | Cached(n: nat)
    | Walk(op: Op, n: nat, ack: nat, out: seq<byte>)          // the loop over several nodes
    | Walked(op: Op, n: nat, ack: nat, out: seq<byte>, l: nat)
    | Pass(op: Op, n: nat, ack: nat, out: seq<byte>, l: nat)  // read = read.next, with what Skip has loaded
    | Look(n: nat, k: nat, scanned: nat)                      // Peek's loop
    | Looked(n: nat, k: nat, scanned: nat, l: nat)
    | Measure                                                 // Release: Len() == 0
    | Lock
    | Again
    | Link
    | MoveWrite
    | MoveFlush
    | Unlock
    | Compare                                                 // read != flush
    | Empty
    | Follow
    | Drop                                                    // head != read

  datatype Holder = Nobody | ThePoller | TheUser

  /** The shared fields.  A position stands for a pointer to the node there. */
  datatype Chain = Chain(nodes: seq<Node>, head: nat, read: nat, flush: nat, write: nat, length: int, op: Holder)

  /** `acked` is every byte ever acked, `published` how many of them `length` has counted, `promised`
      how many were claimed by the user, `consumed` the bytes its reads have passed, `results`
      what Next and Peek returned, with the position it should be found at. */
  datatype History = History(acked: seq<byte>, published: nat, promised: nat, consumed: seq<byte>, results: seq<(nat, seq<byte>)>)

  datatype State = State(c: Chain, cache: seq<byte>, poller: Poller, user: User, h: History)

  /** What the environment decides: sizes, the bytes the kernel delivers, and yes or no. */
  datatype Choice = Choice(size: nat, room: seq<byte>, data: seq<byte>, yes: bool, op: Op)

  // ---------------------------------------------------------------- the poller

  /** A new node behind the last one. */
  function NewNode(c: Chain, text: seq<byte>): Node
    requires c.write < |c.nodes|
  {
    Node(c.nodes[c.write].base + c.nodes[c.write].len, text, 0, 0, 0)
  }

  function SetNode(c: Chain, k: nat, nd: Node): Chain
    requires k < |c.nodes|
  {
    c.(nodes := c.nodes[k := nd])
  }

  function Splice(text: seq<byte>, at: nat, data: seq<byte>): seq<byte>
    requires at + |data| <= |text|
  {
    text[..at] + data + text[at + |data|..]
  }

  predicate PollerEnabled(s: State, e: Choice)
  {
    && s.c.write < |s.c.nodes|
    && match s.poller
       case Away => s.c.op == Nobody
       case Reserving => e.size <= |s.c.nodes[s.c.write].text| - s.c.nodes[s.c.write].malloc
       case Reading(size) => |e.data| <= size <= s.c.nodes[s.c.write].malloc <= |s.c.nodes[s.c.write].text|
       case Sealing(data) => s.c.nodes[s.c.write].malloc <= |s.c.nodes[s.c.write].text|
       case _ => true
  }

  function PollerStep(s: State, e: Choice): State
    requires PollerEnabled(s, e)
  {
    var nd := s.c.nodes[s.c.write];
    match s.poller
    case Away => s.(c := s.c.(op := ThePoller), poller := Booking)
    case Booking =>
      if |nd.text| - nd.malloc == 0 then
        s.(c := s.c.(nodes := s.c.nodes + [NewNode(s.c, e.room)]), poller := Growing)
      else s.(poller := Reserving)
    case Growing => s.(c := s.c.(write := s.c.write + 1), poller := Reserving)
    case Reserving => s.(c := SetNode(s.c, s.c.write, nd.(malloc := nd.malloc + e.size)), poller := Reading(e.size))
    case Reading(size) => s.(c := SetNode(s.c, s.c.write, nd.(text := Splice(nd.text, nd.malloc - size, e.data))), poller := Sizing(e.data))
    case Sizing(data) => s.(c := SetNode(s.c, s.c.write, nd.(malloc := |data| + nd.len)), poller := Sealing(data))
    case Sealing(data) =>
      s.(c := SetNode(s.c, s.c.write, nd.(len := nd.malloc)), h := s.h.(acked := s.h.acked + data), poller := Flushing(data))
    case Flushing(data) => s.(c := s.c.(flush := s.c.write), poller := Counting(data))
    case Counting(data) =>
      s.(c := s.c.(length := s.c.length + |data|), h := s.h.(published := s.h.published + |data|), poller := Leaving)
    case Leaving => s.(c := s.c.(op := Nobody), poller := Away)
  }

  // ---------------------------------------------------------------- the user

  function Len(nd: Node): int { nd.len - nd.off }

  /** The next `n` unread bytes of a node. */
  function Bytes(nd: Node, n: nat): seq<byte>
    requires nd.off + n <= |nd.text|
  {
    nd.text[nd.off..nd.off + n]
  }

  /** node.Next(n): the read offset moves over `n` bytes. */
  function Consume(s: State, n: nat): State
    requires s.c.read < |s.c.nodes| && s.c.nodes[s.c.read].off + n <= |s.c.nodes[s.c.read].text|
  {
    var nd := s.c.nodes[s.c.read];
    s.(c := SetNode(s.c, s.c.read, nd.(off := nd.off + n)), h := s.h.(consumed := s.h.consumed + Bytes(nd, n)))
  }

  function Record(s: State, at: int, t: seq<byte>): State
  {
    s.(h := s.h.(results := s.h.results + [(if at < 0 then 0 else at, t)]))
  }

  function Position(s: State): int
    requires s.c.read < |s.c.nodes|
  {
    s.c.nodes[s.c.read].base + s.c.nodes[s.c.read].off
  }

  /** The read and peek steps that need room in a node to copy from; all others always can move. */
  predicate UserEnabled(s: State, e: Choice)
  {
    && s.c.read < |s.c.nodes| && s.c.write < |s.c.nodes| && 0 <= Len(s.c.nodes[s.c.read])
    && match s.user
       case TakeOne(_, n) => s.c.nodes[s.c.read].off + n <= |s.c.nodes[s.c.read].text|
       case Walked(_, _, ack, _, l) =>
         s.c.nodes[s.c.read].off + (if l >= ack then ack else l) <= |s.c.nodes[s.c.read].text|
       case Pass(op, _, ack, _, l) => op.Skip? ==> s.c.nodes[s.c.read].off + l <= |s.c.nodes[s.c.read].text|
       case Cached(n) => n <= |s.cache|
       case Look(_, k, _) => k < |s.c.nodes| && 0 <= Len(s.c.nodes[k])
       case Looked(n, k, scanned, l) =>
         && k < |s.c.nodes| && |s.cache| < n
         && (scanned + l > |s.cache| ==> scanned <= |s.cache| && s.c.nodes[k].off + l <= |s.c.nodes[k].text|)
       case _ => true
  }

  function ReadStep(s: State, e: Choice): State
    requires UserEnabled(s, e)
  {
    var nd := s.c.nodes[s.c.read];
    match s.user
    case Idle => s.(user := if e.yes then Measure else Ask(e.op, e.size))
    case Ask(op, n) => s.(user := if n == 0 || s.c.length < n then Idle else if op.Peek? then Probe(op, n) else Claim(op, n))
    case Claim(op, n) =>
      s.(c := s.c.(length := s.c.length - n), cache := [], h := s.h.(promised := s.h.promised + n),
         user := if op.Skip? then Walk(op, n, n, []) else Probe(op, n))
    case Probe(op, n) => s.(user := Probed(op, n, Len(nd)))
    case Probed(op, n, l) =>
      if l == 0 && s.c.read != s.c.flush then s.(user := Hop(op, n))
      else if l >= n then s.(user := TakeOne(op, n))
      else if !op.Peek? then s.(user := Walk(op, n, n, []))
      else if |s.cache| >= n then s.(user := Cached(n))
      else s.(cache := if e.yes then [] else s.cache, user := Look(n, s.c.read, 0))
    case Hop(op, n) => s.(c := s.c.(read := s.c.read + 1), user := Probe(op, n))
    case _ => s
  }

  function TakeStep(s: State, e: Choice): State
    requires UserEnabled(s, e)
  {
    var nd := s.c.nodes[s.c.read];
    match s.user
    case TakeOne(op, n) =>
      if op.Peek? then Record(s, Position(s), Bytes(nd, n)).(user := Idle)
      else Record(Consume(s, n), s.h.promised - n, Bytes(nd, n)).(user := Idle)
    case Walk(op, n, ack, out) => s.(user := Walked(op, n, ack, out, Len(nd)))
    case Walked(op, n, ack, out, l) =>
      if l >= ack then
        var t := Consume(s, ack).(user := Idle);
        if op.Skip? then t else Record(t, s.h.promised - n, out + Bytes(nd, ack))
      else if op.Skip? then s.(user := Pass(op, n, ack, out, l))
      else Consume(s, l).(user := Pass(op, n, ack - l, out + Bytes(nd, l), 0))
    case Pass(op, n, ack, out, l) =>
      var t := s.(c := s.c.(read := s.c.read + 1));
      if op.Skip? then
        t.(h := s.h.(consumed := s.h.consumed + Bytes(nd, l)), user := Walk(op, n, if ack < l then 0 else ack - l, out))
      else t.(user := Walk(op, n, ack, out))
    case _ => s
  }

  function PeekStep(s: State, e: Choice): State
    requires UserEnabled(s, e)
  {
    match s.user
    case Cached(n) => Record(s, Position(s), s.cache[..n]).(user := Idle)
    case Look(n, k, scanned) => s.(user := Looked(n, k, scanned, Len(s.c.nodes[k])))
    case Looked(n, k, scanned, l) =>
      if scanned + l <= |s.cache| then s.(user := Look(n, k + 1, scanned + l))
      else
        var start := |s.cache| - scanned;
        var room := l - start;
        var copyn := if n - |s.cache| > room then room else n - |s.cache|;
        var nd := s.c.nodes[k];
        var cache := s.cache + nd.text[nd.off + start..nd.off + start + copyn];
        if |cache| < n then s.(cache := cache, user := Look(n, k + 1, scanned + l))
        else Record(s.(cache := cache), Position(s), cache[..n]).(user := Idle)
    case _ => s
  }

  function ReleaseStep(s: State, e: Choice): State
    requires UserEnabled(s, e)
  {
    match s.user
    case Measure => s.(user := if s.c.length == 0 then Lock else Compare)
    case Lock => if s.c.op == Nobody then s.(c := s.c.(op := TheUser), user := Again) else s.(user := Compare)
    case Again => s.(user := if s.c.length == 0 && e.yes then Link else Unlock)
    case Link => s.(c := s.c.(nodes := s.c.nodes + [NewNode(s.c, [])]), user := MoveWrite)
    case MoveWrite => s.(c := s.c.(write := s.c.write + 1), user := MoveFlush)
    case MoveFlush => s.(c := s.c.(flush := s.c.write), user := Unlock)
    case Unlock => s.(c := s.c.(op := Nobody), user := Compare)
    case Compare => s.(user := if s.c.read != s.c.flush then Empty else Drop)
    case Empty => s.(user := if Len(s.c.nodes[s.c.read]) == 0 then Follow else Drop)
    case Follow => s.(c := s.c.(read := s.c.read + 1), user := Compare)
    case Drop => if s.c.head != s.c.read then s.(c := s.c.(head := s.c.head + 1)) else s.(cache := [], user := Idle)
    case _ => s
  }

  predicate InRead(u: User) { u.Idle? || u.Ask? || u.Claim? || u.Probe? || u.Probed? || u.Hop? }

  predicate InTake(u: User) { u.TakeOne? || u.Walk? || u.Walked? || u.Pass? }

  predicate InPeek(u: User) { u.Cached? || u.Look? || u.Looked? }

  function UserStep(s: State, e: Choice): State
    requires UserEnabled(s, e)
  {
    if InRead(s.user) then ReadStep(s, e)
    else if InTake(s.user) then TakeStep(s, e)
    else if InPeek(s.user) then PeekStep(s, e)
    else ReleaseStep(s, e)
  }

  // ---------------------------------------------------------------- runs

  ghost predicate Init(s: State)
  {
    && |s.c.nodes| == 1 && s.c.nodes[0] == Node(0, s.c.nodes[0].text, 0, 0, 0)
    && s.c == Chain(s.c.nodes, 0, 0, 0, 0, 0, Nobody) && s.cache == [] && s.poller == Away && s.user == Idle
    && s.h == History([], 0, 0, [], [])
  }

  ghost predicate Steps(s: State, s': State)
  {
    || (exists e: Choice :: PollerEnabled(s, e) && s' == PollerStep(s, e))
    || (exists e: Choice :: UserEnabled(s, e) && s' == UserStep(s, e))
  }

  ghost predicate IsRun(run: seq<State>)
  {
    0 < |run| && Init(run[0]) && forall k :: 0 <= k < |run| - 1 ==> Steps(run[k], run[k + 1])
  }

  ghost predicate Reachable(s: State)
  {
    exists run: seq<State> :: IsRun(run) && s == run[|run| - 1]
  }
}
