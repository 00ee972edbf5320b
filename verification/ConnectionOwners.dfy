/** Which thread holds which word: the part of the invariant everything else rests on. */
module ConnectionOwners {
  import opened Prelude
  import opened Connection

  // ---------------------------------------------------------------- sections

  predicate HoldsProc(pc: Pc)
  {
    pc.Greet? || pc.Loop? || pc.Chain?
  }

  predicate HoldsConn(pc: Pc)
  {
    pc.Greet? || pc.Drop? || pc.KProc? || pc.KLost?
  }

  predicate HoldsFlush(pc: Pc)
  {
    pc.FHeld?
  }

  predicate HoldsOp(pc: Pc)
  {
    pc.Poll? || pc.XDoing?
  }

  /** onConnect() has been entered and the task has not changed the phase yet. */
  predicate Pending(pc: Pc)
  {
    pc.KStart? || pc.KLock? || pc.KProc? || (pc.Greet? && pc.g.TConn?)
  }

  /** `word` names the only thread inside the section. */
  ghost predicate Owned(word: Option<nat>, threads: map<nat, Pc>, inside: Pc -> bool)
  {
    && (forall i :: i in threads && inside(threads[i]) ==> word == Some(i))
    && (word.Some? ==> word.value in threads && inside(threads[word.value]))
  }

  /** Thread `i` stays where it is, enters an empty section, or leaves it. */
  predicate WordMove(word: Option<nat>, word': Option<nat>, i: nat, was: bool, now: bool)
  {
    || (word' == word && was == now)
    || (!was && now && word.None? && word' == Some(i))
    || (was && !now && word'.None?)
  }

  lemma OwnedKept(word: Option<nat>, word': Option<nat>, threads: map<nat, Pc>, i: nat, pc': Pc, inside: Pc -> bool)
    requires Owned(word, threads, inside) && i in threads
    requires WordMove(word, word', i, inside(threads[i]), inside(pc'))
    ensures Owned(word', threads[i := pc'], inside)
  {
  }

  lemma OwnedJoined(word: Option<nat>, word': Option<nat>, threads: map<nat, Pc>, j: nat, pc: Pc, inside: Pc -> bool)
    requires Owned(word, threads, inside) && j !in threads && WordMove(word, word', j, false, inside(pc))
    ensures Owned(word', threads[j := pc], inside)
  {
  }

  // ---------------------------------------------------------------- the invariant

  /** A panic inside a connection's task unlocks on its own terms, and a close callback that panics inside
      a task makes it close again: the facts are claimed until one of these happens. */
  predicate Calm(s: State)
  {
    !s.hist.broken && (s.cfg.fifo || !s.hist.panicked)
  }

  /** Which callbacks a program counter presupposes. */
  predicate Fits(cfg: Config, pc: Pc)
  {
    && (pc.Greet? || pc.Drop? || pc.KLock? || pc.KProc? || pc.KLost? ==> cfg.onConnect)
    && ((pc.Hup? && pc.h.HDisState?) || (pc.Hup? && pc.h.HDisLock?) ==> cfg.onConnect && cfg.onDisconnect)
    && ((pc.Hup? && pc.h.HDisSet?) || (pc.Hup? && pc.h.HDisCall?) ==> !cfg.onConnect && cfg.onDisconnect)
    && (pc.Drop? || (pc.Greet? && pc.g.TConnDis?) ==> cfg.onDisconnect)
    && ((pc.Loop? && pc.l.TReq?) || (pc.Leave? && pc.x.TRelock2?) || (pc.Poll? && pc.p.PState?) ==> cfg.onRequest)
    && (pc.Poll? && pc.p.PLock? ==> cfg.onRequest || cfg.fifo)
    && (pc.Loop? || pc.Leave? || (pc.Chain? && pc.b.CbRun? && pc.b.task) ==> Handled(cfg) || cfg.fifo)
  }

  ghost predicate AllFit(cfg: Config, threads: map<nat, Pc>)
  {
    forall i :: i in threads ==> Fits(cfg, threads[i])
  }

  ghost predicate ResOwned(s: State)
  {
    && Owned(s.own.flush, s.threads, HoldsFlush) && Owned(s.own.op, s.threads, HoldsOp)
    && Owned(s.own.pend, s.threads, Pending)
    && AllFit(s.cfg, s.threads)
  }

  ghost predicate LockOwned(s: State)
  {
    Owned(s.own.proc, s.threads, HoldsProc) && Owned(s.own.conn, s.threads, HoldsConn)
  }

  predicate ResAgree(s: State)
  {
    && ValidConfig(s.cfg)
    && (s.res.flushing == Locked <==> s.own.flush.Some?)
    && (s.res.op == Doing <==> s.own.op.Some?)
    && (s.res.handed ==> s.res.freed) && (s.res.freed && !s.res.handed ==> s.res.op == Unused)
    && (!s.res.freed ==> s.res.op == Inuse || s.res.op == Doing)
    && (s.own.pend.Some? ==> s.hist.arrived)
    && ((s.own.pend.Some? || !s.hist.arrived) && s.cfg.onConnect ==> s.words.phase == NoneYet)
  }

  predicate LockAgree(s: State)
  {
    && (s.words.processing <==> s.own.proc.Some?)
    && (s.words.connecting <==> s.own.conn.Some?)
  }

  /** `closing` has been set by the time a thread is here. */
  predicate Late(pc: Pc)
  {
    pc.Chain? || pc.Drop? || (pc.Close? && !pc.u.UCas?) || (pc.Hup? && !pc.h.HCas?) || (pc.Leave? && pc.x.TRelock?)
    || (pc.Loop? && (pc.l.TLen? || pc.l.TBreak?) && pc.l.closedBy != Nobody)
  }

  /** The phase has left NoneYet by the time a thread is here, if OnConnect is installed. */
  predicate Served(pc: Pc)
  {
    pc.Loop? || pc.Leave? || pc.Drop? || (pc.Greet? && !pc.g.TConn?)
    || (pc.Hup? && pc.h.HDisLock?) || (pc.Poll? && pc.p.PLock?) || (pc.Chain? && pc.b.CbRun? && pc.b.task)
  }

  /** What a thread has seen, and what can never be undone. */
  predicate Local(s: State, pc: Pc)
  {
    && (Late(pc) ==> s.words.closing != Nobody)
    && (Served(pc) && s.cfg.onConnect ==> s.words.phase != NoneYet)
    && ((pc.Loop? && pc.l.TPanic?) || (pc.Leave? && pc.x.TPanicChk?) ==> s.hist.panicked)
    && (pc.Leave? && pc.x.TPanicChk? ==> !s.cfg.fifo)
    && (pc.Chain? && (pc.b.FinFree? || pc.b.FinClose? || pc.b.Retired?) && !s.cfg.fifo ==> s.res.flushing == Stopped)
    && (pc.Chain? && (pc.b.FinClose? || pc.b.Retired?) ==> s.res.freed)
  }

  /** The thread that set `closing` and has not told the reader, or is still in onHup. */
  predicate Won(pc: Pc)
  {
    (pc.Close? && pc.u.UTrig?) || (pc.Hup? && !pc.h.HCas?) || pc.Drop?
  }

  ghost predicate AllWon(closer: Option<nat>, threads: map<nat, Pc>)
  {
    forall i :: i in threads && Won(threads[i]) ==> closer == Some(i)
  }

  ghost predicate AllLocal(s: State)
  {
    forall i :: i in s.threads ==> Local(s, s.threads[i])
  }

  /** The facts threads rely on only ever grow. */
  predicate Grows(s: State, s': State)
  {
    && s'.cfg == s.cfg
    && (s.words.closing != Nobody ==> s'.words.closing != Nobody)
    && (s.words.phase != NoneYet ==> s'.words.phase != NoneYet)
    && (s.hist.panicked ==> s'.hist.panicked) && (s.hist.broken ==> s'.hist.broken)
    && (s.res.flushing == Stopped ==> s'.res.flushing == Stopped)
    && (s.res.freed ==> s'.res.freed) && (s.res.handed ==> s'.res.handed)
    && (s.res.closed ==> s'.res.closed)
    && (s.hist.arrived ==> s'.hist.arrived)
  }

  /** Buffers are closed only after both words are out of everybody's reach. */
  predicate ClosedAfterStop(s: State)
  {
    s.res.closed ==> s.res.freed && (s.cfg.fifo || s.res.flushing == Stopped)
  }

  ghost predicate OwnersInv(s: State)
  {
    && ResOwned(s) && ResAgree(s) && (Calm(s) ==> LockOwned(s) && LockAgree(s))
    && AllLocal(s) && ClosedAfterStop(s) && AllWon(s.own.closer, s.threads)
  }

  // ---------------------------------------------------------------- what one step moves

  predicate ResMove(s: State, s': State, i: nat)
    requires i in s.threads && i in s'.threads
  {
    var pc, pc' := s.threads[i], s'.threads[i];
    && s'.cfg == s.cfg && s'.threads == s.threads[i := pc']
    && WordMove(s.own.flush, s'.own.flush, i, HoldsFlush(pc), HoldsFlush(pc'))
    && WordMove(s.own.op, s'.own.op, i, HoldsOp(pc), HoldsOp(pc'))
    && WordMove(s.own.pend, s'.own.pend, i, Pending(pc), Pending(pc'))
    && ResAgree(s')
  }

  predicate LockMove(s: State, s': State, i: nat)
    requires i in s.threads && i in s'.threads
  {
    var pc, pc' := s.threads[i], s'.threads[i];
    && WordMove(s.own.proc, s'.own.proc, i, HoldsProc(pc), HoldsProc(pc'))
    && WordMove(s.own.conn, s'.own.conn, i, HoldsConn(pc), HoldsConn(pc'))
    && LockAgree(s')
  }

  predicate LocalMove(s: State, s': State, i: nat)
    requires i in s'.threads
  {
    && (s'.own.closer == s.own.closer || (s.words.closing == Nobody && s'.own.closer == Some(i)))
    && (Won(s'.threads[i]) ==> s'.own.closer == Some(i))
    && Grows(s, s') && Local(s', s'.threads[i]) && (ClosedAfterStop(s) ==> ClosedAfterStop(s'))
  }

  /** Thread `i` goes from one program counter to the next. */
  predicate Shifts(s: State, s': State, i: nat)
    requires i in s.threads && i in s'.threads
  {
    s'.threads == s.threads[i := s'.threads[i]]
    && LocalMove(s, s', i) && ResMove(s, s', i) && (Calm(s') ==> Calm(s) && LockMove(s, s', i))
  }

  predicate Moves(s: State, s': State, i: nat)
    requires i in s.threads && i in s'.threads
  {
    Shifts(s, s', i) && Fits(s.cfg, s'.threads[i])
  }

  /** What a step of thread `i` may rely on. */
  predicate Ready(s: State, i: nat, pc: Pc)
  {
    && i in s.threads && s.threads[i] == pc && Fits(s.cfg, pc)
    && ResAgree(s) && (Calm(s) ==> LockAgree(s))
    && (Pending(pc) ==> s.own.pend == Some(i))
    && (HoldsFlush(pc) ==> s.res.flushing == Locked) && (HoldsOp(pc) ==> s.res.op == Doing)
    && (Calm(s) ==> (HoldsProc(pc) <==> s.own.proc == Some(i)) && (HoldsConn(pc) <==> s.own.conn == Some(i)))
    && Local(s, pc) && (Won(pc) ==> s.own.closer == Some(i))
  }

  lemma CloseRes(s: State, i: nat, u: ClosePc)
    requires Ready(s, i, Close(u))
    ensures var s' := CloseStep(s, i, u); i in s'.threads && ResMove(s, s', i)
  {
    hide LockAgree, Local, Won, Fits, HoldsProc, HoldsConn, Calm;
  }

  lemma CloseLock(s: State, i: nat, u: ClosePc)
    requires Ready(s, i, Close(u))
    ensures var s' := CloseStep(s, i, u); i in s'.threads && (Calm(s') ==> Calm(s) && LockMove(s, s', i))
  {
    hide ResMove, Late, Served;
  }

  lemma CloseHere(s: State, i: nat, u: ClosePc)
    requires Ready(s, i, Close(u))
    ensures var s' := CloseStep(s, i, u); i in s'.threads && Local(s', s'.threads[i])
  {
    hide ResAgree, LockAgree, HoldsProc, HoldsConn, HoldsOp, HoldsFlush, Pending, Calm, Won;
  }

  lemma CloseLocal(s: State, i: nat, u: ClosePc)
    requires Ready(s, i, Close(u))
    ensures var s' := CloseStep(s, i, u); i in s'.threads && LocalMove(s, s', i)
  {
    hide ResMove, LockMove, LockAgree, HoldsProc, HoldsConn, HoldsOp, HoldsFlush, Calm, Local;
    CloseHere(s, i, u);
  }

  lemma CloseMoves(s: State, i: nat, u: ClosePc)
    requires Ready(s, i, Close(u))
    ensures var s' := CloseStep(s, i, u); i in s'.threads && Shifts(s, s', i)
  {
    hide WordMove, Fits, LockMove, LocalMove, Local, CloseStep;
    CloseRes(s, i, u);
    CloseLock(s, i, u);
    CloseLocal(s, i, u);
  }

  lemma HupRes(s: State, i: nat, h: HupPc)
    requires Ready(s, i, Hup(h))
    ensures var s' := HupStep(s, i, h); i in s'.threads && ResMove(s, s', i)
  {
    hide LockAgree, Local, Won, HoldsProc, HoldsConn, Calm;
  }

  lemma HupLock(s: State, i: nat, h: HupPc)
    requires Ready(s, i, Hup(h))
    ensures var s' := HupStep(s, i, h); i in s'.threads && (Calm(s') ==> Calm(s) && LockMove(s, s', i))
  {
    hide ResMove, Late, Served;
  }

  lemma HupHere(s: State, i: nat, h: HupPc)
    requires Ready(s, i, Hup(h))
    ensures var s' := HupStep(s, i, h); i in s'.threads && Local(s', s'.threads[i])
  {
    hide ResAgree, LockAgree, HoldsProc, HoldsConn, HoldsOp, HoldsFlush, Pending, Calm, Won;
  }

  lemma HupLocal(s: State, i: nat, h: HupPc)
    requires Ready(s, i, Hup(h))
    ensures var s' := HupStep(s, i, h); i in s'.threads && LocalMove(s, s', i)
  {
    hide ResMove, LockMove, LockAgree, HoldsProc, HoldsConn, HoldsOp, HoldsFlush, Calm, Local;
    HupHere(s, i, h);
  }

  lemma HupMoves(s: State, i: nat, h: HupPc)
    requires Ready(s, i, Hup(h))
    ensures var s' := HupStep(s, i, h); i in s'.threads && Shifts(s, s', i)
  {
    hide WordMove, Fits, LockMove, LocalMove, Local, HupStep;
    HupRes(s, i, h);
    HupLock(s, i, h);
    HupLocal(s, i, h);
  }

  lemma DropRes(s: State, i: nat, d: DropPc)
    requires Ready(s, i, Drop(d))
    ensures var s' := DropStep(s, i, d); i in s'.threads && ResMove(s, s', i)
  {
    hide LockAgree, Local, Won, Fits, HoldsProc, HoldsConn, Calm;
  }

  lemma DropLock(s: State, i: nat, d: DropPc)
    requires Ready(s, i, Drop(d))
    ensures var s' := DropStep(s, i, d); i in s'.threads && (Calm(s') ==> Calm(s) && LockMove(s, s', i))
  {
    hide ResMove, Late, Served;
  }

  lemma DropLocal(s: State, i: nat, d: DropPc)
    requires Ready(s, i, Drop(d))
    ensures var s' := DropStep(s, i, d); i in s'.threads && LocalMove(s, s', i)
  {
    hide ResMove, LockMove, LockAgree, HoldsProc, HoldsConn, HoldsOp, HoldsFlush, Calm;
  }

  lemma DropMoves(s: State, i: nat, d: DropPc)
    requires Ready(s, i, Drop(d))
    ensures var s' := DropStep(s, i, d); i in s'.threads && Shifts(s, s', i)
  {
    hide WordMove, Fits, LockMove, LocalMove, Local, DropStep;
    DropRes(s, i, d);
    DropLock(s, i, d);
    DropLocal(s, i, d);
  }

  lemma ConnectRes(s: State, i: nat, pc: Pc, task: nat)
    requires Ready(s, i, pc) && (pc.KStart? || pc.KLock? || (pc.KProc? && s.words.processing))
    ensures var s' := ConnectStep(s, i, pc, task); i in s'.threads && ResMove(s, s', i)
  {
    hide LockAgree, Local, Won, Fits, HoldsProc, HoldsConn, Calm;
  }

  lemma ConnectLock(s: State, i: nat, pc: Pc, task: nat)
    requires Ready(s, i, pc) && (pc.KStart? || pc.KLock? || (pc.KProc? && s.words.processing))
    ensures var s' := ConnectStep(s, i, pc, task); i in s'.threads && (Calm(s') ==> Calm(s) && LockMove(s, s', i))
  {
    hide ResMove, Late, Served;
  }

  lemma ConnectLocal(s: State, i: nat, pc: Pc, task: nat)
    requires Ready(s, i, pc) && (pc.KStart? || pc.KLock? || (pc.KProc? && s.words.processing))
    ensures var s' := ConnectStep(s, i, pc, task); i in s'.threads && LocalMove(s, s', i)
  {
    hide ResMove, LockMove, LockAgree, HoldsProc, HoldsConn, HoldsOp, HoldsFlush, Calm;
  }

  lemma ConnectMoves(s: State, i: nat, pc: Pc, task: nat)
    requires Ready(s, i, pc) && (pc.KStart? || pc.KLock? || (pc.KProc? && s.words.processing))
    ensures var s' := ConnectStep(s, i, pc, task); i in s'.threads && Shifts(s, s', i)
  {
    hide WordMove, Fits, LockMove, LocalMove, Local, ConnectStep;
    ConnectRes(s, i, pc, task);
    ConnectLock(s, i, pc, task);
    ConnectLocal(s, i, pc, task);
  }

  lemma PollRes(s: State, i: nat, p: PollPc, c: Choice)
    requires Ready(s, i, Poll(p)) && (p.PLock? ==> s.words.processing)
    ensures var s' := PollStep(s, i, p, c); i in s'.threads && ResMove(s, s', i)
  {
    hide LockAgree, Local, Won, Fits, HoldsProc, HoldsConn, Calm;
  }

  lemma PollLock(s: State, i: nat, p: PollPc, c: Choice)
    requires Ready(s, i, Poll(p)) && (p.PLock? ==> s.words.processing)
    ensures var s' := PollStep(s, i, p, c); i in s'.threads && (Calm(s') ==> Calm(s) && LockMove(s, s', i))
  {
    hide ResMove, Late, Served;
  }

  lemma PollLocal(s: State, i: nat, p: PollPc, c: Choice)
    requires Ready(s, i, Poll(p)) && (p.PLock? ==> s.words.processing)
    ensures var s' := PollStep(s, i, p, c); i in s'.threads && LocalMove(s, s', i)
  {
    hide ResMove, LockMove, LockAgree;
  }

  lemma PollMoves(s: State, i: nat, p: PollPc, c: Choice)
    requires Ready(s, i, Poll(p)) && (p.PLock? ==> s.words.processing)
    ensures var s' := PollStep(s, i, p, c); i in s'.threads && Shifts(s, s', i)
  {
    hide WordMove, Fits, LockMove, LocalMove, Local, PollStep;
    PollRes(s, i, p, c);
    PollLock(s, i, p, c);
    PollLocal(s, i, p, c);
  }

  lemma GreetRes(s: State, i: nat, g: GreetPc, yes: bool)
    requires Ready(s, i, Greet(g))
    ensures var s' := GreetStep(s, i, g, yes); i in s'.threads && ResMove(s, s', i)
  {
    hide LockAgree, Local, Won, Fits, HoldsProc, HoldsConn, Calm;
  }

  lemma GreetLock(s: State, i: nat, g: GreetPc, yes: bool)
    requires Ready(s, i, Greet(g))
    ensures var s' := GreetStep(s, i, g, yes); i in s'.threads && (Calm(s') ==> Calm(s) && LockMove(s, s', i))
  {
    hide ResMove, Late, Served;
  }

  lemma GreetHere(s: State, i: nat, g: GreetPc, yes: bool)
    requires Ready(s, i, Greet(g))
    ensures var s' := GreetStep(s, i, g, yes); i in s'.threads && Local(s', s'.threads[i])
  {
    hide ResAgree, LockAgree, HoldsProc, HoldsConn, HoldsOp, HoldsFlush, Pending, Calm, Won;
  }

  lemma GreetLocal(s: State, i: nat, g: GreetPc, yes: bool)
    requires Ready(s, i, Greet(g))
    ensures var s' := GreetStep(s, i, g, yes); i in s'.threads && LocalMove(s, s', i)
  {
    hide ResMove, LockMove, LockAgree, HoldsProc, HoldsConn, HoldsOp, HoldsFlush, Calm, Local;
    GreetHere(s, i, g, yes);
  }

  lemma GreetMoves(s: State, i: nat, g: GreetPc, yes: bool)
    requires Ready(s, i, Greet(g))
    ensures var s' := GreetStep(s, i, g, yes); i in s'.threads && Shifts(s, s', i)
  {
    hide WordMove, Fits, LockMove, LocalMove, Local, GreetStep;
    GreetRes(s, i, g, yes);
    GreetLock(s, i, g, yes);
    GreetLocal(s, i, g, yes);
  }

  lemma LoopRes(s: State, i: nat, l: LoopPc, yes: bool)
    requires Ready(s, i, Loop(l))
    ensures var s' := LoopStep(s, i, l, yes); i in s'.threads && ResMove(s, s', i)
  {
    hide LockAgree, Local, Won, Fits, HoldsProc, HoldsConn, Calm;
  }

  lemma LoopLock(s: State, i: nat, l: LoopPc, yes: bool)
    requires Ready(s, i, Loop(l))
    ensures var s' := LoopStep(s, i, l, yes); i in s'.threads && (Calm(s') ==> Calm(s) && LockMove(s, s', i))
  {
    hide ResMove, Late, Served;
  }

  lemma LoopLocal(s: State, i: nat, l: LoopPc, yes: bool)
    requires Ready(s, i, Loop(l))
    ensures var s' := LoopStep(s, i, l, yes); i in s'.threads && LocalMove(s, s', i)
  {
    hide ResMove, LockMove, LockAgree, HoldsProc, HoldsConn, HoldsOp, HoldsFlush, Calm;
  }

  lemma LoopMoves(s: State, i: nat, l: LoopPc, yes: bool)
    requires Ready(s, i, Loop(l))
    ensures var s' := LoopStep(s, i, l, yes); i in s'.threads && Shifts(s, s', i)
  {
    hide WordMove, Fits, LockMove, LocalMove, Local, LoopStep;
    LoopRes(s, i, l, yes);
    LoopLock(s, i, l, yes);
    LoopLocal(s, i, l, yes);
  }

  lemma LeaveRes(s: State, i: nat, x: LeavePc)
    requires Ready(s, i, Leave(x))
    ensures var s' := LeaveStep(s, i, x); i in s'.threads && ResMove(s, s', i)
  {
    hide LockAgree, Local, Won, Fits, HoldsProc, HoldsConn, Calm;
  }

  lemma LeaveLock(s: State, i: nat, x: LeavePc)
    requires Ready(s, i, Leave(x))
    ensures var s' := LeaveStep(s, i, x); i in s'.threads && (Calm(s') ==> Calm(s) && LockMove(s, s', i))
  {
    hide ResMove, Late, Served;
  }

  lemma LeaveLocal(s: State, i: nat, x: LeavePc)
    requires Ready(s, i, Leave(x))
    ensures var s' := LeaveStep(s, i, x); i in s'.threads && LocalMove(s, s', i)
  {
    hide ResMove, LockMove, LockAgree, HoldsProc, HoldsConn, HoldsOp, HoldsFlush, Calm;
  }

  lemma LeaveMoves(s: State, i: nat, x: LeavePc)
    requires Ready(s, i, Leave(x))
    ensures var s' := LeaveStep(s, i, x); i in s'.threads && Shifts(s, s', i)
  {
    hide WordMove, Fits, LockMove, LocalMove, Local, LeaveStep;
    LeaveRes(s, i, x);
    LeaveLock(s, i, x);
    LeaveLocal(s, i, x);
  }

  lemma ChainAgree(s: State, i: nat, b: ChainPc, yes: bool)
    requires ResAgree(s) && (b.FinStop? ==> s.res.flushing != Locked) && (b.FinFree? ==> s.res.op != Doing)
    ensures ResAgree(ChainStep(s, i, b, yes))
  {
  }

  lemma ChainRes(s: State, i: nat, b: ChainPc, yes: bool)
    requires Ready(s, i, Chain(b)) && (b.FinStop? ==> s.res.flushing != Locked) && (b.FinFree? ==> s.res.op != Doing)
    ensures var s' := ChainStep(s, i, b, yes); i in s'.threads && ResMove(s, s', i)
  {
    hide ResAgree, LockAgree, Local, Won, Fits, HoldsProc, HoldsConn, Calm;
    ChainAgree(s, i, b, yes);
  }

  lemma ChainLock(s: State, i: nat, b: ChainPc, yes: bool)
    requires Ready(s, i, Chain(b)) && (b.FinStop? ==> s.res.flushing != Locked) && (b.FinFree? ==> s.res.op != Doing)
    ensures var s' := ChainStep(s, i, b, yes); i in s'.threads && (Calm(s') ==> Calm(s) && LockMove(s, s', i))
  {
    hide ResMove, Late, Served;
  }

  lemma ChainLocal(s: State, i: nat, b: ChainPc, yes: bool)
    requires Ready(s, i, Chain(b)) && (b.FinStop? ==> s.res.flushing != Locked) && (b.FinFree? ==> s.res.op != Doing)
    ensures var s' := ChainStep(s, i, b, yes); i in s'.threads && LocalMove(s, s', i)
  {
    hide ResMove, LockMove, LockAgree, HoldsProc, HoldsConn, HoldsOp, HoldsFlush, Pending, Calm;
  }

  lemma ChainMoves(s: State, i: nat, b: ChainPc, yes: bool)
    requires Ready(s, i, Chain(b)) && (b.FinStop? ==> s.res.flushing != Locked) && (b.FinFree? ==> s.res.op != Doing)
    ensures var s' := ChainStep(s, i, b, yes); i in s'.threads && Shifts(s, s', i)
  {
    hide WordMove, Fits, LockMove, LocalMove, Local, ChainStep;
    ChainRes(s, i, b, yes);
    ChainLock(s, i, b, yes);
    ChainLocal(s, i, b, yes);
  }

  lemma UseRes(s: State, i: nat, pc: Pc)
    requires Ready(s, i, pc) && (pc.FActive? || pc.FLock? || pc.FHeld? || pc.PDo? || pc.XLen? || pc.XDo? || pc.XDoing?)
    ensures var s' := UseStep(s, i, pc); i in s'.threads && ResMove(s, s', i)
  {
    hide LockAgree, Local, Won, Fits, HoldsProc, HoldsConn, Calm;
  }

  lemma UseLock(s: State, i: nat, pc: Pc)
    requires Ready(s, i, pc) && (pc.FActive? || pc.FLock? || pc.FHeld? || pc.PDo? || pc.XLen? || pc.XDo? || pc.XDoing?)
    ensures var s' := UseStep(s, i, pc); i in s'.threads && (Calm(s') ==> Calm(s) && LockMove(s, s', i))
  {
    hide ResMove, Late, Served;
  }

  lemma UseLocal(s: State, i: nat, pc: Pc)
    requires Ready(s, i, pc) && (pc.FActive? || pc.FLock? || pc.FHeld? || pc.PDo? || pc.XLen? || pc.XDo? || pc.XDoing?)
    ensures var s' := UseStep(s, i, pc); i in s'.threads && LocalMove(s, s', i)
  {
    hide ResMove, LockMove, LockAgree;
  }

  lemma UseMoves(s: State, i: nat, pc: Pc)
    requires Ready(s, i, pc) && (pc.FActive? || pc.FLock? || pc.FHeld? || pc.PDo? || pc.XLen? || pc.XDo? || pc.XDoing?)
    ensures var s' := UseStep(s, i, pc); i in s'.threads && Shifts(s, s', i)
  {
    hide WordMove, Fits, LockMove, LocalMove, Local, UseStep;
    UseRes(s, i, pc);
    UseLock(s, i, pc);
    UseLocal(s, i, pc);
  }

  lemma LocalGrows(s: State, s': State, pc: Pc)
    requires Local(s, pc) && Grows(s, s')
    ensures Local(s', pc)
  {
    hide Late, Served;
  }

  lemma MovesKeepOwners(s: State, s': State, i: nat)
    requires OwnersInv(s) && i in s.threads && i in s'.threads && Moves(s, s', i)
    ensures OwnersInv(s')
  {
    hide Owned, WordMove, HoldsProc, HoldsConn, HoldsOp, HoldsFlush, Pending, Fits, Local, Won, Grows;
    var pc' := s'.threads[i];
    OwnedKept(s.own.flush, s'.own.flush, s.threads, i, pc', HoldsFlush);
    OwnedKept(s.own.op, s'.own.op, s.threads, i, pc', HoldsOp);
    OwnedKept(s.own.pend, s'.own.pend, s.threads, i, pc', Pending);
    if Calm(s') {
      OwnedKept(s.own.proc, s'.own.proc, s.threads, i, pc', HoldsProc);
      OwnedKept(s.own.conn, s'.own.conn, s.threads, i, pc', HoldsConn);
    }
    forall j | j in s.threads && j != i
      ensures Local(s', s.threads[j])
    {
      LocalGrows(s, s', s.threads[j]);
    }
    forall j | j in s.threads && j != i && Won(s.threads[j])
      ensures s'.own.closer == Some(j)
    {
      WonIsLate(s, s.threads[j]);
    }
  }

  lemma WonIsLate(s: State, pc: Pc)
    requires Local(s, pc) && Won(pc)
    ensures s.words.closing != Nobody
  {
  }

  lemma ReadyHolds(s: State, i: nat)
    requires OwnersInv(s) && i in s.threads
    ensures Ready(s, i, s.threads[i])
  {
    hide HoldsProc, HoldsConn, HoldsOp, HoldsFlush, Pending, Fits, Local;
  }

  // ---------------------------------------------------------------- threads that join

  predicate LockJoin(s: State, s': State, j: nat, pc: Pc)
  {
    && WordMove(s.own.proc, s'.own.proc, j, false, HoldsProc(pc))
    && WordMove(s.own.conn, s'.own.conn, j, false, HoldsConn(pc))
    && LockAgree(s')
  }

  /** A thread joins: a caller, an event, or a task that starts with its locks in hand. */
  predicate Joins(s: State, s': State, j: nat, pc: Pc)
  {
    && j !in s.threads && s'.threads == s.threads[j := pc]
    && Fits(s.cfg, pc) && Grows(s, s') && Local(s', pc)
    && s'.own.closer == s.own.closer && !Won(pc)
    && s'.own.flush == s.own.flush && s'.own.op == s.own.op && !HoldsFlush(pc) && !HoldsOp(pc)
    && WordMove(s.own.pend, s'.own.pend, j, false, Pending(pc))
    && ResAgree(s') && (ClosedAfterStop(s) ==> ClosedAfterStop(s'))
    && (Calm(s') ==> Calm(s) && LockJoin(s, s', j, pc))
  }

  lemma JoinKeepsOwners(s: State, s': State, j: nat, pc: Pc)
    requires OwnersInv(s) && Joins(s, s', j, pc)
    ensures OwnersInv(s')
  {
    hide Owned, HoldsProc, HoldsConn, HoldsOp, HoldsFlush, Pending, Fits, Local;
    OwnedJoined(s.own.flush, s'.own.flush, s.threads, j, pc, HoldsFlush);
    OwnedJoined(s.own.op, s'.own.op, s.threads, j, pc, HoldsOp);
    OwnedJoined(s.own.pend, s'.own.pend, s.threads, j, pc, Pending);
    if Calm(s') {
      OwnedJoined(s.own.proc, s'.own.proc, s.threads, j, pc, HoldsProc);
      OwnedJoined(s.own.conn, s'.own.conn, s.threads, j, pc, HoldsConn);
    }
    forall i | i in s.threads
      ensures Local(s', s.threads[i])
    {
      LocalGrows(s, s', s.threads[i]);
    }
  }

  lemma EnterJoins(s: State, i: nat, pc: Pc)
    requires OwnersInv(s) && i !in s.threads && Entry(s, pc)
    ensures Joins(s, Enter(s, i, pc), i, pc)
  {
    hide Owned, AllLocal, AllFit;
  }

  /** A poller event starts the request task: first it lets go, then the task joins. */
  function Unlocking(s: State, i: nat): State
  {
    Goto(s, i, Poll(PNext))
  }

  lemma PollLetsGo(s: State, i: nat, p: PollPc)
    requires Ready(s, i, Poll(p)) && p.PLock?
    ensures var t := Unlocking(s, i); i in t.threads && Moves(s, t, i)
  {
  }

  lemma PollSpawns(s: State, i: nat, p: PollPc, c: Choice)
    requires Ready(s, i, Poll(p)) && p.PLock? && !s.words.processing && c.task !in s.threads
    ensures Joins(Unlocking(s, i), PollStep(s, i, p, c), c.task, Loop(TStart))
  {
  }

  /** onConnect starts its task: it hands `connecting` over. */
  function HandingOver(s: State, i: nat): State
  {
    Goto(SetPend(DropConn(s), None), i, Done)
  }

  lemma ConnectLetsGo(s: State, i: nat)
    requires Ready(s, i, KProc)
    ensures var t := HandingOver(s, i); i in t.threads && Moves(s, t, i)
  {
  }

  lemma ConnectSpawns(s: State, i: nat, task: nat)
    requires Ready(s, i, KProc) && !s.words.processing && task !in s.threads
    ensures Joins(HandingOver(s, i), ConnectStep(s, i, KProc, task), task, Greet(TConn))
  {
    assert HandingOver(s, i).threads[task := Greet(TConn)] == ConnectStep(s, i, KProc, task).threads;
  }

  // ---------------------------------------------------------------- every step

  predicate Plain(s: State, i: nat)
    requires i in s.threads
  {
    var pc := s.threads[i];
    (pc.KProc? || (pc.Poll? && pc.p.PLock?)) ==> s.words.processing
  }

  lemma CloseFits(s: State, i: nat, u: ClosePc)
    ensures var s' := CloseStep(s, i, u); i in s'.threads && Fits(s.cfg, s'.threads[i])
  {
  }

  lemma HupFits(s: State, i: nat, h: HupPc)
    requires Fits(s.cfg, Hup(h))
    ensures var s' := HupStep(s, i, h); i in s'.threads && Fits(s.cfg, s'.threads[i])
  {
  }

  lemma DropFits(s: State, i: nat, d: DropPc)
    requires Fits(s.cfg, Drop(d))
    ensures var s' := DropStep(s, i, d); i in s'.threads && Fits(s.cfg, s'.threads[i])
  {
  }

  lemma ConnectFits(s: State, i: nat, pc: Pc, task: nat)
    requires Fits(s.cfg, pc) && (pc.KStart? || pc.KLock? || (pc.KProc? && s.words.processing))
    ensures var s' := ConnectStep(s, i, pc, task); i in s'.threads && Fits(s.cfg, s'.threads[i])
  {
  }

  lemma PollFits(s: State, i: nat, p: PollPc, c: Choice)
    requires Fits(s.cfg, Poll(p)) && (p.PLock? ==> s.words.processing)
    ensures var s' := PollStep(s, i, p, c); i in s'.threads && Fits(s.cfg, s'.threads[i])
  {
  }

  lemma GreetFits(s: State, i: nat, g: GreetPc, yes: bool)
    requires Fits(s.cfg, Greet(g))
    ensures var s' := GreetStep(s, i, g, yes); i in s'.threads && Fits(s.cfg, s'.threads[i])
  {
  }

  lemma LoopFits(s: State, i: nat, l: LoopPc, yes: bool)
    requires Fits(s.cfg, Loop(l))
    ensures var s' := LoopStep(s, i, l, yes); i in s'.threads && Fits(s.cfg, s'.threads[i])
  {
  }

  lemma LeaveFits(s: State, i: nat, x: LeavePc)
    requires Fits(s.cfg, Leave(x))
    ensures var s' := LeaveStep(s, i, x); i in s'.threads && Fits(s.cfg, s'.threads[i])
  {
  }

  lemma ChainFits(s: State, i: nat, b: ChainPc, yes: bool)
    requires i in s.threads && s.threads[i] == Chain(b) && Fits(s.cfg, Chain(b))
    ensures var s' := ChainStep(s, i, b, yes); i in s'.threads && Fits(s.cfg, s'.threads[i])
  {
  }

  lemma UseFits(s: State, i: nat, pc: Pc)
    requires pc.FActive? || pc.FLock? || pc.FHeld? || pc.PDo? || pc.XLen? || pc.XDo? || pc.XDoing?
    ensures var s' := UseStep(s, i, pc); i in s'.threads && Fits(s.cfg, s'.threads[i])
  {
  }

  /** Every step but the two that start a task only moves its own thread. */
  lemma ExecMoves(s: State, i: nat, c: Choice)
    requires OwnersInv(s) && Enabled(s, i, c) && Plain(s, i)
    ensures var s' := Exec(s, i, c); i in s'.threads && Moves(s, s', i)
  {
    hide Shifts, Fits, OwnersInv, CloseStep, HupStep, DropStep, ConnectStep, PollStep, GreetStep, LoopStep, LeaveStep, ChainStep, UseStep;
    ReadyHolds(s, i);
    assert Fits(s.cfg, s.threads[i]);
    hide Ready;
    var pc := s.threads[i];
    match pc
    case Close(u) => CloseMoves(s, i, u); CloseFits(s, i, u);
    case Hup(h) => HupMoves(s, i, h); HupFits(s, i, h);
    case Drop(d) => DropMoves(s, i, d); DropFits(s, i, d);
    case Poll(p) => PollMoves(s, i, p, c); PollFits(s, i, p, c);
    case Greet(g) => GreetMoves(s, i, g, c.yes); GreetFits(s, i, g, c.yes);
    case Loop(l) => LoopMoves(s, i, l, c.yes); LoopFits(s, i, l, c.yes);
    case Leave(x) => LeaveMoves(s, i, x); LeaveFits(s, i, x);
    case Chain(b) => ChainMoves(s, i, b, c.yes); ChainFits(s, i, b, c.yes);
    case KStart => ConnectMoves(s, i, KStart, c.task); ConnectFits(s, i, KStart, c.task);
    case KLock => ConnectMoves(s, i, KLock, c.task); ConnectFits(s, i, KLock, c.task);
    case KProc => ConnectMoves(s, i, KProc, c.task); ConnectFits(s, i, KProc, c.task);
    case _ => UseMoves(s, i, pc); UseFits(s, i, pc);
  }

  lemma ExecKeepsOwners(s: State, i: nat, c: Choice)
    requires OwnersInv(s) && Enabled(s, i, c)
    ensures OwnersInv(Exec(s, i, c))
  {
    hide Moves, OwnersInv, Joins, PollStep, ConnectStep, CloseStep, HupStep, DropStep, GreetStep, LoopStep, LeaveStep, ChainStep, UseStep;
    var s' := Exec(s, i, c);
    if Plain(s, i) {
      ExecMoves(s, i, c);
      MovesKeepOwners(s, s', i);
    } else {
      ReadyHolds(s, i);
      if s.threads[i].KProc? {
        ConnectLetsGo(s, i);
        MovesKeepOwners(s, HandingOver(s, i), i);
        ConnectSpawns(s, i, c.task);
        JoinKeepsOwners(HandingOver(s, i), s', c.task, Greet(TConn));
      } else {
        PollLetsGo(s, i, s.threads[i].p);
        PollSpawns(s, i, s.threads[i].p, c);
        MovesKeepOwners(s, Unlocking(s, i), i);
        JoinKeepsOwners(Unlocking(s, i), s', c.task, Loop(TStart));
      }
    }
  }

  lemma ReaderKeepsOwners(s: State, c: Choice)
    requires OwnersInv(s) && ReaderEnabled(s, c)
    ensures OwnersInv(ReaderStep(s, c))
  {
    hide Owned, AllFit, Late, Served;
    forall i | i in s.threads
      ensures Local(ReaderStep(s, c), s.threads[i])
    {
      assert Local(s, s.threads[i]);
    }
  }

  /** Others have the operator. */
  lemma OtherKeepsOwners(s: State, s': State)
    requires OwnersInv(s) && s.res.freed && MovesOn(s.res.op, s'.res.op) && s' == Elsewhere(s, s'.res.op)
    ensures OwnersInv(s')
  {
    hide Owned, AllFit, Late, Served;
    forall i | i in s.threads
      ensures Local(s', s.threads[i])
    {
      assert Local(s, s.threads[i]);
    }
  }

  lemma InitOwners(s: State)
    requires Init(s)
    ensures OwnersInv(s)
  {
  }

  lemma NextKeepsOwners(s: State, s': State)
    requires OwnersInv(s) && Next(s, s')
    ensures OwnersInv(s')
  {
    hide OwnersInv, Exec, Enabled, ReaderStep, ReaderEnabled, Joins;
    if i: nat, pc: Pc :| i !in s.threads && Entry(s, pc) && s' == Enter(s, i, pc) {
      EnterJoins(s, i, pc);
      JoinKeepsOwners(s, s', i, pc);
    } else if i, c :| Enabled(s, i, c) && s' == Exec(s, i, c) {
      ExecKeepsOwners(s, i, c);
    } else if c :| (s.reader.RIdle? ==> MayRead(s)) && ReaderEnabled(s, c) && s' == ReaderStep(s, c) {
      ReaderKeepsOwners(s, c);
    } else {
      OtherKeepsOwners(s, s');
    }
  }

  // ---------------------------------------------------------------- the holders' program counters

  function At(threads: map<nat, Pc>, word: Option<nat>): Pc
  {
    if word.Some? && word.value in threads then threads[word.value] else Done
  }

  /** Where the holder of `processing` stands before and after a step. */
  lemma ProcAfter(s: State, s': State, i: nat)
    requires OwnersInv(s) && i in s.threads && i in s'.threads && Moves(s, s', i) && Calm(s')
    ensures var pc, pc' := s.threads[i], s'.threads[i];
            var h, h' := At(s.threads, s.own.proc), At(s'.threads, s'.own.proc);
            && (HoldsProc(pc) ==> h == pc) && (HoldsProc(pc') ==> h' == pc')
            && (!HoldsProc(pc) && HoldsProc(pc') ==> h == Done)
            && (HoldsProc(pc) && !HoldsProc(pc') ==> h' == Done)
            && (!HoldsProc(pc) && !HoldsProc(pc') ==> h' == h)
  {
    hide ResMove, LocalMove, ResOwned, AllLocal;
  }

  lemma ConnAfter(s: State, s': State, i: nat)
    requires OwnersInv(s) && i in s.threads && i in s'.threads && Moves(s, s', i) && Calm(s')
    ensures var pc, pc' := s.threads[i], s'.threads[i];
            var h, h' := At(s.threads, s.own.conn), At(s'.threads, s'.own.conn);
            && (HoldsConn(pc) ==> h == pc) && (HoldsConn(pc') ==> h' == pc')
            && (!HoldsConn(pc) && HoldsConn(pc') ==> h == Done)
            && (HoldsConn(pc) && !HoldsConn(pc') ==> h' == Done)
            && (!HoldsConn(pc) && !HoldsConn(pc') ==> h' == h)
  {
    hide ResMove, LocalMove, ResOwned, AllLocal;
  }

  lemma OpAfter(s: State, s': State, i: nat)
    requires OwnersInv(s) && i in s.threads && i in s'.threads && Moves(s, s', i)
    ensures var pc, pc' := s.threads[i], s'.threads[i];
            var h, h' := At(s.threads, s.own.op), At(s'.threads, s'.own.op);
            && (HoldsOp(pc) ==> h == pc) && (HoldsOp(pc') ==> h' == pc')
            && (!HoldsOp(pc) && HoldsOp(pc') ==> h == Done)
            && (HoldsOp(pc) && !HoldsOp(pc') ==> h' == Done)
            && (!HoldsOp(pc) && !HoldsOp(pc') ==> h' == h)
  {
    hide LocalMove, LockOwned, AllLocal, AllFit, Fits, LockMove;
  }
}
