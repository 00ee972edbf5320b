/** A reader parked in waitRead is woken: whenever it sleeps on an empty channel, it has not
    got its bytes yet and the connection is open, or somebody is still on the way to wake
    it.  This holds for every connection, and for a FIFO exactly if a handler is installed. */
module ConnectionWakeup {
  import opened Prelude
  import opened Connection
  import opened ConnectionOwners

  /** A poller event between its ack and its trigger, or its decision not to. */
  predicate TriggerDue(pc: Pc)
  {
    pc.Poll? && !pc.p.PRead? && !pc.p.PNext?
  }

  predicate HasLength(pc: Pc)
  {
    pc.Poll? && (pc.p.PReq? || pc.p.PState? || pc.p.PLock? || pc.p.PWait?)
  }

  /** The closer before its triggerRead. */
  predicate TellsReader(pc: Pc)
  {
    (pc.Close? && pc.u.UTrig?) || (pc.Hup? && pc.h.HTrig?)
  }

  /** The reader's view, given where the holders of the operator and of `processing` and the
      closer stand. */
  predicate Wake(cfg: Config, closing: Who, input: Input, reader: Reader, opPc: Pc, closerPc: Pc, procPc: Pc)
  {
    && (reader.RLoop? || reader.RStat? || reader.RPark? ==> input.waitSize == reader.n)
    && (HasLength(opPc) ==> input.len <= opPc.p.length)
    && ((reader.RStat? || reader.RPark?) && input.signal == NoSignal ==> input.len < reader.n || TriggerDue(opPc))
    && (reader.RPark? && input.signal == NoSignal ==> closing == Nobody || TellsReader(closerPc))
    && (!reader.RIdle? && cfg.onRequest ==> InCall(procPc))
  }

  /** A FIFO without handler is the one configuration that loses wake-ups. */
  predicate Wakes(cfg: Config)
  {
    cfg.fifo ==> cfg.onRequest
  }

  ghost predicate WakeInv(s: State)
  {
    Wake(s.cfg, s.words.closing, s.input, s.reader,
         At(s.threads, s.own.op), At(s.threads, s.own.closer), At(s.threads, s.own.proc))
  }

  // ---------------------------------------------------------------- one step

  /** The program counter of a word's holder after thread `i` moved from `pc` to `pc'`. */
  function Side(x: Pc, pc': Pc, was: bool, now: bool): Pc
  {
    if now then pc' else if was then Done else x
  }

  /** `x`, `y`, `z` are the holders of the operator, the closer and the holder of
      `processing` before the step. */
  predicate Views(s: State, i: nat, x: Pc, y: Pc, z: Pc)
    requires i in s.threads
  {
    var pc := s.threads[i];
    && (HoldsOp(pc) ==> x == pc) && (s.own.closer == Some(i) ==> y == pc) && (HoldsProc(pc) ==> z == pc)
    && (InCall(z) && s.cfg.onConnect ==> s.words.phase != NoneYet)
    && (s.res.op != Doing ==> x == Done)
  }

  predicate WakeMove(s: State, s': State, i: nat, x: Pc, y: Pc, z: Pc)
    requires i in s.threads && i in s'.threads
  {
    var pc, pc' := s.threads[i], s'.threads[i];
    Wake(s.cfg, s.words.closing, s.input, s.reader, x, y, z) ==>
      Wake(s'.cfg, s'.words.closing, s'.input, s'.reader,
           Side(x, pc', HoldsOp(pc), HoldsOp(pc')),
           if s'.own.closer == Some(i) then pc' else y,
           Side(z, pc', HoldsProc(pc), HoldsProc(pc')))
  }

  lemma CloseWake(s: State, i: nat, u: ClosePc, x: Pc, y: Pc, z: Pc)
    requires Ready(s, i, Close(u)) && Views(s, i, x, y, z)
    requires u.ULock? && !s.words.processing ==> z == Done
    ensures var s' := CloseStep(s, i, u); i in s'.threads && WakeMove(s, s', i, x, y, z)
  {
    hide Served, ResAgree, LockAgree, Fits;
  }

  lemma HupWake(s: State, i: nat, h: HupPc, x: Pc, y: Pc, z: Pc)
    requires Ready(s, i, Hup(h)) && Views(s, i, x, y, z)
    requires h.HLock? && !s.words.processing ==> z == Done
    ensures var s' := HupStep(s, i, h); i in s'.threads && WakeMove(s, s', i, x, y, z)
  {
    hide Late, Served, ResAgree, LockAgree, Fits;
  }

  lemma DropWake(s: State, i: nat, d: DropPc, x: Pc, y: Pc, z: Pc)
    requires Ready(s, i, Drop(d)) && Views(s, i, x, y, z)
    ensures var s' := DropStep(s, i, d); i in s'.threads && WakeMove(s, s', i, x, y, z)
  {
    hide Late, Served, ResAgree, LockAgree, Fits;
  }

  lemma ConnectWake(s: State, i: nat, pc: Pc, task: nat, x: Pc, y: Pc, z: Pc)
    requires Ready(s, i, pc) && Views(s, i, x, y, z) && (pc.KStart? || pc.KLock? || (pc.KProc? && s.words.processing))
    ensures var s' := ConnectStep(s, i, pc, task); i in s'.threads && WakeMove(s, s', i, x, y, z)
  {
    hide Late, Served, ResAgree, LockAgree, Fits;
  }

  lemma PollWake(s: State, i: nat, p: PollPc, c: Choice, x: Pc, y: Pc, z: Pc)
    requires Ready(s, i, Poll(p)) && Views(s, i, x, y, z) && (p.PLock? ==> s.words.processing)
    ensures var s' := PollStep(s, i, p, c); i in s'.threads && WakeMove(s, s', i, x, y, z)
  {
    hide Late, Served, ResAgree, LockAgree;
  }

  lemma GreetWake(s: State, i: nat, g: GreetPc, yes: bool, x: Pc, y: Pc, z: Pc)
    requires Ready(s, i, Greet(g)) && Views(s, i, x, y, z)
    requires g.TConnIn? && s.cfg.onRequest ==> s.reader.RIdle?
    ensures var s' := GreetStep(s, i, g, yes); i in s'.threads && WakeMove(s, s', i, x, y, z)
  {
    hide Late, Served, ResAgree, LockAgree, Fits;
  }

  lemma LoopWake(s: State, i: nat, l: LoopPc, yes: bool, x: Pc, y: Pc, z: Pc)
    requires Ready(s, i, Loop(l)) && Views(s, i, x, y, z)
    requires l.TReq? && s.cfg.onRequest ==> s.reader.RIdle?
    ensures var s' := LoopStep(s, i, l, yes); i in s'.threads && WakeMove(s, s', i, x, y, z)
  {
    hide Late, Served, ResAgree, LockAgree, Fits;
  }

  lemma LeaveWake(s: State, i: nat, l: LeavePc, x: Pc, y: Pc, z: Pc)
    requires Ready(s, i, Leave(l)) && Views(s, i, x, y, z)
    requires (l.TRelock? || l.TRelock2?) && !s.words.processing ==> z == Done
    requires !l.TPanicChk?
    ensures var s' := LeaveStep(s, i, l); i in s'.threads && WakeMove(s, s', i, x, y, z)
  {
    hide Late, Served, ResAgree, LockAgree, Fits;
  }

  lemma ChainWake(s: State, i: nat, b: ChainPc, yes: bool, x: Pc, y: Pc, z: Pc)
    requires Ready(s, i, Chain(b)) && Views(s, i, x, y, z)
    ensures var s' := ChainStep(s, i, b, yes); i in s'.threads && WakeMove(s, s', i, x, y, z)
  {
    hide Late, Served, ResAgree, LockAgree, Fits;
  }

  lemma UseWake(s: State, i: nat, pc: Pc, x: Pc, y: Pc, z: Pc)
    requires Ready(s, i, pc) && Views(s, i, x, y, z)
    requires pc.FActive? || pc.FLock? || pc.FHeld? || pc.PDo? || pc.XLen? || pc.XDo? || pc.XDoing?
    ensures var s' := UseStep(s, i, pc); i in s'.threads && WakeMove(s, s', i, x, y, z)
  {
    hide Late, Served, ResAgree, LockAgree, Fits, HoldsConn, Won, Pending;
  }

  lemma ViewsHold(s: State, i: nat)
    requires OwnersInv(s) && Calm(s) && i in s.threads
    ensures Views(s, i, At(s.threads, s.own.op), At(s.threads, s.own.closer), At(s.threads, s.own.proc))
    ensures !s.words.processing ==> At(s.threads, s.own.proc) == Done
  {
    hide AllFit, Fits, Late;
    var z := At(s.threads, s.own.proc);
    if s.own.proc.Some? { assert Local(s, z); }
  }

  lemma ExecWake(s: State, i: nat, c: Choice, x: Pc, y: Pc, z: Pc)
    requires OwnersInv(s) && Enabled(s, i, c) && Plain(s, i) && Calm(s) && Views(s, i, x, y, z)
    requires !s.words.processing ==> z == Done
    ensures var s' := Exec(s, i, c); i in s'.threads && WakeMove(s, s', i, x, y, z)
  {
    hide WakeMove, OwnersInv, Views, CloseStep, HupStep, DropStep, ConnectStep, PollStep, GreetStep, LoopStep, LeaveStep, ChainStep, UseStep;
    ReadyHolds(s, i);
    var pc := s.threads[i];
    if pc.Leave? { NoPanicHere(s, i, pc.x); }
    hide Ready;
    match pc
    case Close(u) => CloseWake(s, i, u, x, y, z);
    case Hup(h) => HupWake(s, i, h, x, y, z);
    case Drop(d) => DropWake(s, i, d, x, y, z);
    case Poll(p) => PollWake(s, i, p, c, x, y, z);
    case Greet(g) => GreetWake(s, i, g, c.yes, x, y, z);
    case Loop(l) => LoopWake(s, i, l, c.yes, x, y, z);
    case Leave(l) => LeaveWake(s, i, l, x, y, z);
    case Chain(b) => ChainWake(s, i, b, c.yes, x, y, z);
    case KStart => ConnectWake(s, i, KStart, c.task, x, y, z);
    case KLock => ConnectWake(s, i, KLock, c.task, x, y, z);
    case KProc => ConnectWake(s, i, KProc, c.task, x, y, z);
    case _ => UseWake(s, i, pc, x, y, z);
  }

  lemma NoPanicHere(s: State, i: nat, l: LeavePc)
    requires Ready(s, i, Leave(l)) && Calm(s)
    ensures !l.TPanicChk?
  {
  }

  lemma ExecKeepsWake(s: State, i: nat, c: Choice)
    requires OwnersInv(s) && WakeInv(s) && Calm(s) && Enabled(s, i, c) && Plain(s, i) && Calm(Exec(s, i, c))
    ensures WakeInv(Exec(s, i, c))
  {
    hide OwnersInv, Exec, ResMove, LockMove, Wake, HoldsOp, HoldsProc;
    var s' := Exec(s, i, c);
    var x, y, z := At(s.threads, s.own.op), At(s.threads, s.own.closer), At(s.threads, s.own.proc);
    ViewsHold(s, i);
    ExecMoves(s, i, c);
    ExecWake(s, i, c, x, y, z);
    ProcAfter(s, s', i);
    OpAfter(s, s', i);
    CloserAfter(s, s', i);
  }

  lemma CloserAfter(s: State, s': State, i: nat)
    requires OwnersInv(s) && i in s.threads && i in s'.threads && Moves(s, s', i)
    ensures At(s'.threads, s'.own.closer) ==
            if s'.own.closer == Some(i) then s'.threads[i] else At(s.threads, s.own.closer)
  {
    hide ResOwned, LockOwned, AllLocal, ResMove, LockMove, Local, Grows;
    assert s'.own.closer == s.own.closer || s'.own.closer == Some(i);
  }

  /** A newcomer that is no task changes none of the three views. */
  lemma EnterKeepsWake(s: State, i: nat, pc: Pc)
    requires OwnersInv(s) && WakeInv(s) && Calm(s) && i !in s.threads && Entry(s, pc)
    ensures WakeInv(Enter(s, i, pc))
  {
    hide AllLocal, AllFit, HoldsOp, HoldsProc;
  }

  /** A task starts only while nobody holds `processing`, so no callback is waiting. */
  lemma SpawnKeepsWake(s: State, i: nat, c: Choice)
    requires OwnersInv(s) && WakeInv(s) && Wakes(s.cfg) && Calm(s) && Enabled(s, i, c) && !Plain(s, i)
    ensures WakeInv(Exec(s, i, c))
  {
    hide AllLocal, Pending, HoldsFlush, HoldsConn;
    assert Fits(s.cfg, s.threads[i]);
  }

  lemma ReaderKeepsWake(s: State, c: Choice)
    requires OwnersInv(s) && WakeInv(s) && Calm(s) && ReaderEnabled(s, c) && (s.reader.RIdle? ==> MayRead(s))
    ensures WakeInv(ReaderStep(s, c))
  {
    hide AllLocal, AllFit, HoldsOp;
    if s.reader.RIdle? && s.cfg.onRequest {
      var i :| i in s.threads && InCall(s.threads[i]);
      assert At(s.threads, s.own.proc) == s.threads[i];
    }
  }

  lemma OtherKeepsWake(s: State, s': State)
    requires OwnersInv(s) && WakeInv(s) && s.res.freed && MovesOn(s.res.op, s'.res.op) && s' == Elsewhere(s, s'.res.op)
    ensures WakeInv(s')
  {
    hide OwnersInv;
  }

  lemma NextKeepsWake(s: State, s': State)
    requires OwnersInv(s) && WakeInv(s) && Wakes(s.cfg) && Calm(s) && Next(s, s') && Calm(s')
    ensures WakeInv(s')
  {
    hide OwnersInv, WakeInv, Exec, ReaderStep, ReaderEnabled;
    if i: nat, pc: Pc :| i !in s.threads && Entry(s, pc) && s' == Enter(s, i, pc) {
      EnterKeepsWake(s, i, pc);
    } else if i, c :| Enabled(s, i, c) && s' == Exec(s, i, c) {
      if Plain(s, i) { ExecKeepsWake(s, i, c); } else { SpawnKeepsWake(s, i, c); }
    } else if c :| (s.reader.RIdle? ==> MayRead(s)) && ReaderEnabled(s, c) && s' == ReaderStep(s, c) {
      ReaderKeepsWake(s, c);
    } else {
      OtherKeepsWake(s, s');
    }
  }

  /** The reader sleeps although it should not, and nobody is about to wake it. */
  ghost predicate Forgotten(s: State)
  {
    && s.reader.RPark? && s.input.signal == NoSignal
    && ((s.input.len >= s.reader.n && forall i :: i in s.threads ==> !TriggerDue(s.threads[i]))
        || (s.words.closing != Nobody && forall i :: i in s.threads ==> !TellsReader(s.threads[i])))
  }

  lemma NeverForgotten(s: State)
    requires WakeInv(s)
    ensures !Forgotten(s)
  {
  }
}
