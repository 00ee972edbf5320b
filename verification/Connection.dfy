/** The life of one connection, or of one read FIFO, as seen by everything that touches it:
    poller events, hang-ups, callers of Close, Flush and Release, the task that runs the
    user's callbacks, and one reader.  They share nothing but lock words, two counters and
    a one-slot channel, and each atomic operation of the source is one step here. */
module Connection {
  import opened Prelude

  /** Which callbacks were installed at init; a FIFO has no onConnect and no onDisconnect, and its
      onRequest is OnFifoRead.  `onClose`: the user added close callbacks. */
  datatype Config = Config(fifo: bool, onConnect: bool, onDisconnect: bool, onRequest: bool, onClose: bool)

  predicate ValidConfig(cfg: Config)
  {
    cfg.fifo ==> !cfg.onConnect && !cfg.onDisconnect
  }

  /** Somebody besides the user is expected to close. */
  predicate Handled(cfg: Config)
  {
    cfg.onConnect || cfg.onRequest
  }

  datatype Who = Nobody | User | Poller
  datatype Phase = NoneYet | Connected | Disconnected
  datatype Flushing = Open | Locked | Stopped
  /** The state word of the operator.  Foreign: once it was freed and handed out again, its new owner is between
      do and done. */
  datatype Operator = Unused | Inuse | Doing | Foreign
  datatype Signal = NoSignal | Nil | Err

  // Program counters, by the section of the source they are in.  Which words a thread holds
  // can be read off the section.

  /** onClose. */
  datatype ClosePc = UCas | UTrig | UForce | ULock
  /** onHup and onDisconnect, outside `connecting`. */
  datatype HupPc = HCas | HTrig | HDis | HDisSet | HDisCall | HDisState | HDisLock | HFin | HLock
  /** onDisconnect holding `connecting`. */
  datatype DropPc = HDisCas | HDisRun | HDisUnlock
  /** A poller event between do and done: inputs, inputAck. */
  datatype PollPc = PRead | PReq(length: nat) | PState(length: nat) | PLock(length: nat) | PWait(length: nat) | PTrig | PNext
  /** The task of onProcess running OnConnect, holding `processing` and `connecting`. */
  datatype GreetPc = TConn | TConnRun | TConnIn | TConnChk | TConnCas | TConnDis | TConnUnl
  /** The task in its OnRequest loop, holding `processing`. */
  datatype LoopPc = TStart | TReq | TStat | TLen(closedBy: Who) | TBreak(closedBy: Who) | TUnlock | TPanic
  /** The task after its unlock, checking again. */
  datatype LeavePc = TClosing | TRelock | TLen2 | TRelock2 | TPanicChk
  /** closeCallback once it may run the chain, down to the finalizer; Retired never unlocks.  `task`: it
      was called by the body of the task, whose deferred function sees a panic; anywhere else a
      callback that panics ends the goroutine, Fallen, with `processing` locked. */
  datatype ChainPc = CbRun(task: bool) | FinStop | FinFree | FinClose | Retired | Fallen

  datatype Pc =
    | Close(u: ClosePc)
    | Hup(h: HupPc)
    | Drop(d: DropPc)
    | KStart | KLock | KProc | KLost                // onConnect; KLost keeps `connecting` for good
    | PDo | Poll(p: PollPc)
    | Greet(g: GreetPc)
    | Loop(l: LoopPc)
    | Leave(x: LeavePc)
    | Chain(b: ChainPc)
    | FActive | FLock | FHeld                       // Flush and Write
    | XLen | XDo | XDoing                           // Release: resetTail under do/done
    | Done

  datatype Reader = RIdle | RLen(n: nat) | RStore(n: nat) | RLoop(n: nat) | RStat(n: nat) | RPark(n: nat) | RClear

  datatype Words = Words(closing: Who, processing: bool, connecting: bool, phase: Phase)
  /** `freed`: the finalizer gave the operator back; `handed`: the cache has given it to somebody else since. */
  datatype Resources = Resources(flushing: Flushing, op: Operator, closed: bool, freed: bool, handed: bool)
  datatype Input = Input(len: nat, signal: Signal, waitSize: nat)

  /** Bookkeeping: who holds the words, who set `closing`, and who still has to change the
      phase for OnConnect.  No step reads it. */
  datatype Owners = Owners(proc: Option<nat>, conn: Option<nat>, pend: Option<nat>,
                           closer: Option<nat>, flush: Option<nat>, op: Option<nat>)

  /** What has happened: runs of the close-callback chain, OnConnect calls begun and
      returned, OnDisconnect calls, whether onConnect() was entered, whether a callback
      panicked in a task, and whether that was a close callback. */
  datatype History = History(callbacks: nat, connects: nat, returned: nat, disconnects: nat, arrived: bool, panicked: bool, broken: bool)

  datatype State = State(cfg: Config, words: Words, res: Resources, input: Input, reader: Reader,
                         own: Owners, hist: History, threads: map<nat, Pc>)

  /** What the environment decides: a task id, bytes read or consumed, and a yes or no. */
  datatype Choice = Choice(task: nat, n: nat, yes: bool)

  // ---------------------------------------------------------------- helpers

  function Goto(s: State, i: nat, pc: Pc): State
  {
    s.(threads := s.threads[i := pc])
  }

  /** Take `processing` for thread `i`. */
  function TakeProc(s: State, i: nat): State
  {
    s.(words := s.words.(processing := true), own := s.own.(proc := Some(i)))
  }

  function DropProc(s: State): State
  {
    s.(words := s.words.(processing := false), own := s.own.(proc := None))
  }

  function TakeConn(s: State, i: nat): State
  {
    s.(words := s.words.(connecting := true), own := s.own.(conn := Some(i)))
  }

  function DropConn(s: State): State
  {
    s.(words := s.words.(connecting := false), own := s.own.(conn := None))
  }

  function SetPend(s: State, p: Option<nat>): State
  {
    s.(own := s.own.(pend := p))
  }

  function TakeFlush(s: State, i: nat): State
  {
    s.(res := s.res.(flushing := Locked), own := s.own.(flush := Some(i)))
  }

  function DropFlush(s: State): State
  {
    s.(res := s.res.(flushing := Open), own := s.own.(flush := None))
  }

  function TakeOp(s: State, i: nat): State
  {
    s.(res := s.res.(op := Doing), own := s.own.(op := Some(i)))
  }

  function DropOp(s: State): State
  {
    s.(res := s.res.(op := Inuse), own := s.own.(op := None))
  }

  function SetPhase(s: State, p: Phase): State
  {
    s.(words := s.words.(phase := p))
  }

  function SetClosing(s: State, w: Who, i: nat): State
  {
    s.(words := s.words.(closing := w), own := s.own.(closer := Some(i)))
  }

  /** A send on the one-slot channel; dropped when the slot is full. */
  function Trigger(s: State, v: Signal): State
  {
    s.(input := s.input.(signal := if s.input.signal == NoSignal then v else s.input.signal))
  }

  function CountDisconnect(s: State): State
  {
    s.(hist := s.hist.(disconnects := s.hist.disconnects + 1))
  }

  /** A task is started for the holder of `processing`. */
  function Spawn(s: State, task: nat, pc: Pc): State
  {
    Goto(TakeProc(s, task), task, pc)
  }

  /** A callback of the user is running. */
  predicate InCall(pc: Pc)
  {
    (pc.Greet? && pc.g.TConnIn?) || (pc.Loop? && pc.l.TReq?)
  }

  // ---------------------------------------------------------------- the steps

  /** onClose. */
  function CloseStep(s: State, i: nat, u: ClosePc): State
  {
    match u
    case UCas =>
      if s.words.closing == Nobody then Goto(SetClosing(s, User, i), i, Close(UTrig)) else Goto(s, i, Close(UForce))
    case UTrig => Goto(Trigger(s, Err), i, Close(ULock))
    case UForce => Goto(s.(words := s.words.(closing := User)), i, Close(ULock))
    case ULock => if s.words.processing then Goto(s, i, Done) else Goto(TakeProc(s, i), i, Chain(CbRun(false)))
  }

  /** onHup, and onDisconnect up to its lock. */
  function HupStep(s: State, i: nat, h: HupPc): State
  {
    match h
    case HCas =>
      if s.words.closing == Nobody then Goto(SetClosing(s, Poller, i), i, Hup(HTrig)) else Goto(s, i, Done)
    case HTrig => Goto(Trigger(s, Err), i, Hup(if s.cfg.fifo then HFin else HDis))
    case HDis => Goto(s, i, Hup(if !s.cfg.onDisconnect then HFin else if !s.cfg.onConnect then HDisSet else HDisState))
    case HDisSet => Goto(SetPhase(s, Disconnected), i, Hup(HDisCall))
    case HDisCall => Goto(CountDisconnect(s), i, Hup(HFin))
    case HDisState => Goto(s, i, Hup(if s.words.phase == NoneYet then HFin else HDisLock))
    case HDisLock => if s.words.connecting then Goto(s, i, Hup(HFin)) else Goto(TakeConn(s, i), i, Drop(HDisCas))
    case HFin => Goto(s, i, if Handled(s.cfg) then Hup(HLock) else Done)
    case HLock => if s.words.processing then Goto(s, i, Done) else Goto(TakeProc(s, i), i, Chain(CbRun(false)))
  }

  /** onDisconnect under its lock. */
  function DropStep(s: State, i: nat, d: DropPc): State
  {
    match d
    case HDisCas =>
      if s.words.phase == Connected then Goto(SetPhase(s, Disconnected), i, Drop(HDisRun)) else Goto(s, i, Drop(HDisUnlock))
    case HDisRun => Goto(CountDisconnect(s), i, Drop(HDisUnlock))
    case HDisUnlock => Goto(DropConn(s), i, Hup(HFin))
  }

  /** onConnect; the task it starts inherits `connecting`. */
  function ConnectStep(s: State, i: nat, pc: Pc, task: nat): State
  {
    if pc.KStart? then
      if s.cfg.onConnect then Goto(s, i, KLock)
      else Goto(SetPend(if s.words.phase == NoneYet then SetPhase(s, Connected) else s, None), i, Done)
    else if pc.KLock? then
      if s.words.connecting then Goto(SetPend(s, None), i, Done) else Goto(TakeConn(s, i), i, KProc)
    else
      if s.words.processing then Goto(SetPend(s, None), i, KLost)
      else Spawn(SetPend(TakeConn(Goto(s, i, Done), task), Some(task)), task, Greet(TConn))
  }

  /** inputs and inputAck, any number of times, then done.  A task id must be new. */
  function PollStep(s: State, i: nat, p: PollPc, c: Choice): State
  {
    match p
    case PRead =>
      var length := s.input.len + c.n;
      if c.n == 0 then Goto(s, i, Poll(PNext))
      else Goto(s.(input := s.input.(len := length)), i, Poll(if length == c.n then PReq(length) else PWait(length)))
    case PReq(length) =>
      Goto(s, i, Poll(if s.cfg.fifo then PLock(length) else if s.cfg.onRequest then PState(length) else PWait(length)))
    case PState(length) =>
      Goto(s, i, Poll(if s.words.phase == NoneYet && s.cfg.onConnect then PNext else PLock(length)))
    case PLock(length) =>
      if s.words.processing then Goto(s, i, Poll(PWait(length)))
      else Spawn(Goto(s, i, Poll(PNext)), c.task, Loop(TStart))
    case PWait(length) => Goto(s, i, Poll(if length >= s.input.waitSize then PTrig else PNext))
    case PTrig => Goto(Trigger(s, Nil), i, Poll(PNext))
    case PNext => if c.yes then Goto(s, i, Poll(PRead)) else Goto(DropOp(s), i, Done)
  }

  /** The task: OnConnect, and OnDisconnect on its behalf. */
  function GreetStep(s: State, i: nat, g: GreetPc, returning: bool): State
  {
    match g
    case TConn =>
      if s.words.phase == NoneYet then Goto(SetPend(SetPhase(s, Connected), None), i, Greet(TConnRun))
      else Goto(SetPend(s, None), i, Loop(TStart))
    case TConnRun => Goto(s.(hist := s.hist.(connects := s.hist.connects + 1)), i, Greet(TConnIn))
    case TConnIn =>
      if returning then Goto(s.(hist := s.hist.(returned := s.hist.returned + 1)), i, Greet(TConnChk))
      else Goto(s.(hist := s.hist.(panicked := true)), i, Loop(TPanic))
    case TConnChk => Goto(s, i, Greet(if s.words.closing == Nobody then TConnUnl else TConnCas))
    case TConnCas =>
      if s.words.phase == Connected
      then Goto(SetPhase(s, Disconnected), i, Greet(if s.cfg.onDisconnect then TConnDis else TConnUnl))
      else Goto(s, i, Greet(TConnUnl))
    case TConnDis =>
      var t := CountDisconnect(s);
      if returning then Goto(t, i, Greet(TConnUnl)) else Goto(t.(hist := t.hist.(panicked := true)), i, Loop(TPanic))
    case TConnUnl => Goto(DropConn(s), i, Loop(TStart))
  }

  /** The task: the OnRequest loop; and the start of the deferred function after a panic. */
  function LoopStep(s: State, i: nat, l: LoopPc, returning: bool): State
  {
    match l
    case TStart => Goto(s, i, Loop(if s.cfg.onRequest && s.input.len > 0 then TReq else TStat))
    case TReq =>
      if returning then Goto(s, i, Loop(TStat)) else Goto(s.(hist := s.hist.(panicked := true)), i, Loop(TPanic))
    case TStat => Goto(s, i, Loop(TLen(s.words.closing)))
    case TLen(w) => Goto(s, i, Loop(if w == User || !s.cfg.onRequest || s.input.len == 0 then TBreak(w) else TReq))
    case TBreak(w) => Goto(s, i, if w == Nobody then Loop(TUnlock) else Chain(CbRun(true)))
    case TUnlock => Goto(DropProc(s), i, Leave(TClosing))
    case TPanic => Goto(DropProc(s), i, if s.cfg.fifo then Close(UCas) else Leave(TPanicChk))
  }

  /** The task: check again. */
  function LeaveStep(s: State, i: nat, x: LeavePc): State
  {
    match x
    case TClosing => Goto(s, i, Leave(if s.words.closing == Nobody then TLen2 else TRelock))
    case TRelock => if s.words.processing then Goto(s, i, Leave(TLen2)) else Goto(TakeProc(s, i), i, Chain(CbRun(true)))
    case TLen2 => Goto(s, i, if s.cfg.onRequest && s.input.len > 0 then Leave(TRelock2) else Done)
    case TRelock2 => if s.words.processing then Goto(s, i, Done) else Goto(TakeProc(s, i), i, Loop(TStart))
    case TPanicChk => Goto(s, i, if s.words.closing == Nobody then Close(UCas) else Chain(CbRun(false)))
  }

  /** The close-callback chain; the finalizer is its last element, behind the callbacks of the user.  A
      FIFO's finalizer has nothing to stop. */
  function ChainStep(s: State, i: nat, b: ChainPc, returning: bool): State
  {
    match b
    case CbRun(task) =>
      var t := s.(hist := s.hist.(callbacks := s.hist.callbacks + 1));
      if returning || !s.cfg.onClose then Goto(t, i, Chain(if s.cfg.fifo then FinFree else FinStop))
      else if task then Goto(t.(hist := t.hist.(panicked := true, broken := true)), i, Loop(TPanic))
      else Goto(t, i, Chain(Fallen))
    case FinStop => Goto(s.(res := s.res.(flushing := Stopped)), i, Chain(FinFree))
    case FinFree => Goto(s.(res := s.res.(op := Unused, freed := true)), i, Chain(FinClose))
    case FinClose =>
      Goto(if s.input.len == 0 || Handled(s.cfg) then s.(res := s.res.(closed := true)) else s, i, Chain(Retired))
    case Retired => s
    case Fallen => s
  }

  /** Flush and Write under `flushing`; poller events and Release under do/done.  An event of this connection
      does not meet the operator of somebody else, see OperatorsSafety.NoStaleEvent; Release does not
      ask. */
  function UseStep(s: State, i: nat, pc: Pc): State
  {
    match pc
    case FActive => Goto(s, i, if s.words.closing == Nobody then FLock else Done)
    case FLock => if s.res.flushing == Open then Goto(TakeFlush(s, i), i, FHeld) else Goto(s, i, Done)
    case FHeld => Goto(DropFlush(s), i, Done)
    case PDo => if s.res.op == Inuse && !s.res.handed then Goto(TakeOp(s, i), i, Poll(PRead)) else Goto(s, i, Done)
    case XLen => Goto(s, i, if s.input.len == 0 then XDo else Done)
    case XDo => if s.res.op == Inuse then Goto(TakeOp(s, i), i, XDoing) else Goto(s, i, Done)
    case XDoing => Goto(DropOp(s), i, Done)
    case _ => s
  }

  predicate Ended(pc: Pc)
  {
    pc.Done? || pc.KLost? || (pc.Chain? && (pc.b.Retired? || pc.b.Fallen?))
  }

  /** Whether thread `i` can move.  `stop` and `unused` spin; a callback does not return
      while the reader it called is still inside; a fresh id is found for a new task. */
  predicate Enabled(s: State, i: nat, c: Choice)
  {
    && i in s.threads
    && var pc := s.threads[i];
    && !Ended(pc)
    && ((pc.Chain? && pc.b.FinStop?) ==> s.res.flushing != Locked)
    && ((pc.Chain? && pc.b.FinFree?) ==> s.res.op != Doing && s.res.op != Foreign)
    && (InCall(pc) && s.cfg.onRequest ==> s.reader.RIdle?)
    && (pc.KProc? || (pc.Poll? && pc.p.PLock?) ==> c.task !in s.threads)
  }

  function Exec(s: State, i: nat, c: Choice): State
    requires Enabled(s, i, c)
  {
    match s.threads[i]
    case Close(u) => CloseStep(s, i, u)
    case Hup(h) => HupStep(s, i, h)
    case Drop(d) => DropStep(s, i, d)
    case Poll(p) => PollStep(s, i, p, c)
    case Greet(g) => GreetStep(s, i, g, c.yes)
    case Loop(l) => LoopStep(s, i, l, c.yes)
    case Leave(x) => LeaveStep(s, i, x)
    case Chain(b) => ChainStep(s, i, b, c.yes)
    case KStart => ConnectStep(s, i, KStart, c.task)
    case KLock => ConnectStep(s, i, KLock, c.task)
    case KProc => ConnectStep(s, i, KProc, c.task)
    case pc => UseStep(s, i, pc)
  }

  /** With a request callback installed, only callbacks read; otherwise the user does. */
  ghost predicate MayRead(s: State)
  {
    s.cfg.onRequest ==> exists i :: i in s.threads && InCall(s.threads[i])
  }

  /** waitRead, and reading `c.n` bytes when idle and `c.yes`. */
  predicate ReaderEnabled(s: State, c: Choice)
  {
    match s.reader
    case RIdle => c.yes ==> c.n <= s.input.len
    case RPark(_) => s.input.signal != NoSignal
    case _ => true
  }

  function ReaderStep(s: State, c: Choice): State
    requires ReaderEnabled(s, c)
  {
    match s.reader
    case RIdle =>
      if c.yes then s.(input := s.input.(len := s.input.len - c.n)) else s.(reader := RLen(c.n))
    case RLen(n) => s.(reader := if n <= s.input.len then RIdle else RStore(n))
    case RStore(n) => s.(reader := RLoop(n), input := s.input.(waitSize := n))
    case RLoop(n) => s.(reader := if s.input.len < n then RStat(n) else RClear)
    case RStat(n) => s.(reader := if s.words.closing == Nobody then RPark(n) else RClear)
    case RPark(n) => s.(reader := if s.input.signal == Err then RClear else RLoop(n), input := s.input.(signal := NoSignal))
    case RClear => s.(reader := RIdle, input := s.input.(waitSize := 0))
  }

  /** Anybody may call Close, Flush, Write or Release, the poller may report events and
      hang-ups at any time, and onConnect() is entered at most once. */
  predicate Entry(s: State, pc: Pc)
  {
    (pc.Close? && pc.u.UCas?) || (pc.Hup? && pc.h.HCas?) || pc.PDo? || pc.FActive? || pc.XLen? || (pc.KStart? && !s.hist.arrived && !s.cfg.fifo)
  }

  function Enter(s: State, i: nat, pc: Pc): State
  {
    if pc.KStart? then Goto(SetPend(s.(hist := s.hist.(arrived := true)), Some(i)), i, pc) else Goto(s, i, pc)
  }

  /** What others do to an operator that was freed: it is put in use, fired, and freed again. */
  predicate MovesOn(op: Operator, op': Operator)
  {
    (op.Unused? && op'.Inuse?) || (op.Inuse? && op'.Foreign?) || (op.Foreign? && op'.Inuse?) || (op.Inuse? && op'.Unused?)
  }

  function Elsewhere(s: State, op: Operator): State
  {
    s.(res := s.res.(op := op, handed := true))
  }

  ghost predicate Next(s: State, s': State)
  {
    || (exists i: nat, pc: Pc :: i !in s.threads && Entry(s, pc) && s' == Enter(s, i, pc))
    || (exists i, c :: Enabled(s, i, c) && s' == Exec(s, i, c))
    || (exists c :: (s.reader.RIdle? ==> MayRead(s)) && ReaderEnabled(s, c) && s' == ReaderStep(s, c))
    || (exists op :: s.res.freed && MovesOn(s.res.op, op) && s' == Elsewhere(s, op))
  }

  /** After init: registered with the poller, nothing read, nobody inside. */
  predicate Init(s: State)
  {
    && ValidConfig(s.cfg)
    && s.words == Words(Nobody, false, false, NoneYet)
    && s.res == Resources(Open, Inuse, false, false, false)
    && s.input == Input(0, NoSignal, 0) && s.reader == RIdle
    && s.own == Owners(None, None, None, None, None, None)
    && s.hist == History(0, 0, 0, 0, false, false, false)
    && s.threads == map[]
  }

  ghost predicate IsRun(run: seq<State>)
  {
    && 0 < |run| && Init(run[0])
    && forall k :: 0 <= k < |run| - 1 ==> Next(run[k], run[k + 1])
  }

  ghost predicate Reachable(s: State)
  {
    exists run: seq<State> :: IsRun(run) && s == run[|run| - 1]
  }

  /** Nothing is running: every call has returned and every task has ended. */
  ghost predicate Quiescent(s: State)
  {
    forall i :: i in s.threads ==> Ended(s.threads[i])
  }
}
