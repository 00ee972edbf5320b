/** The close callbacks: run at most once, and run exactly once whenever a closed connection
    comes to rest and somebody was responsible for closing it. */
module ConnectionClose {
  import opened Prelude
  import opened Connection
  import opened ConnectionOwners

  /** The chain has been started. */
  predicate PastRun(pc: Pc)
  {
    pc.Chain? && !pc.b.CbRun?
  }

  /** The thread will still start the chain or try the lock after `closing` was set. */
  predicate WillClose(cfg: Config, pc: Pc)
  {
    || pc.Close? || pc.Greet? || pc.Loop? || (pc.Chain? && pc.b.CbRun?)
    || (pc.Leave? && (pc.x.TClosing? || pc.x.TRelock?))
    || (Handled(cfg) && ((pc.Hup? && !pc.h.HCas?) || pc.Drop?))
  }

  /** Closed, and somebody besides the absent user must see to it. */
  predicate NeedsChain(s: State)
  {
    s.words.closing != Nobody && (Handled(s.cfg) || s.words.closing == User)
  }

  ghost predicate SomebodyCloses(s: State)
  {
    exists i :: i in s.threads && WillClose(s.cfg, s.threads[i])
  }

  ghost predicate CloseInv(s: State)
  {
    && s.hist.callbacks == (if PastRun(At(s.threads, s.own.proc)) then 1 else 0)
    && (NeedsChain(s) && s.hist.callbacks == 0 ==> SomebodyCloses(s))
  }

  predicate ChainMove(s: State, s': State, i: nat)
    requires i in s.threads && i in s'.threads
  {
    var pc, pc' := s.threads[i], s'.threads[i];
    var runs := pc.Chain? && pc.b.CbRun?;
    && s'.hist.callbacks == (if runs then s.hist.callbacks + 1 else s.hist.callbacks)
    && (PastRun(pc') <==> PastRun(pc) || runs)
    && (NeedsChain(s') && s'.hist.callbacks == 0 ==>
        WillClose(s.cfg, pc')
        || (NeedsChain(s) && (WillClose(s.cfg, pc) ==> s.words.processing && s.own.proc != Some(i))))
  }

  lemma CloseChain(s: State, i: nat, u: ClosePc)
    requires Ready(s, i, Close(u)) && Calm(s)
    ensures var s' := CloseStep(s, i, u); i in s'.threads && ChainMove(s, s', i)
  {
    hide Late, Served;
  }

  lemma HupChain(s: State, i: nat, h: HupPc)
    requires Ready(s, i, Hup(h)) && Calm(s)
    ensures var s' := HupStep(s, i, h); i in s'.threads && ChainMove(s, s', i)
  {
    hide Late, Served;
  }

  lemma DropChain(s: State, i: nat, d: DropPc)
    requires Ready(s, i, Drop(d)) && Calm(s)
    ensures var s' := DropStep(s, i, d); i in s'.threads && ChainMove(s, s', i)
  {
    hide Late, Served;
  }

  lemma ConnectChain(s: State, i: nat, pc: Pc, task: nat)
    requires Ready(s, i, pc) && Calm(s) && (pc.KStart? || pc.KLock? || (pc.KProc? && s.words.processing))
    ensures var s' := ConnectStep(s, i, pc, task); i in s'.threads && ChainMove(s, s', i)
  {
    hide Late, Served;
  }

  lemma PollChain(s: State, i: nat, p: PollPc, c: Choice)
    requires Ready(s, i, Poll(p)) && Calm(s) && (p.PLock? ==> s.words.processing)
    ensures var s' := PollStep(s, i, p, c); i in s'.threads && ChainMove(s, s', i)
  {
    hide Late, Served;
  }

  lemma GreetChain(s: State, i: nat, g: GreetPc, yes: bool)
    requires Ready(s, i, Greet(g)) && Calm(s)
    ensures var s' := GreetStep(s, i, g, yes); i in s'.threads && ChainMove(s, s', i)
  {
    hide Late, Served;
  }

  lemma LoopChain(s: State, i: nat, l: LoopPc, yes: bool)
    requires Ready(s, i, Loop(l)) && Calm(s) && Calm(LoopStep(s, i, l, yes))
    ensures var s' := LoopStep(s, i, l, yes); i in s'.threads && ChainMove(s, s', i)
  {
    hide Late, Served;
  }

  lemma LeaveChain(s: State, i: nat, x: LeavePc)
    requires Ready(s, i, Leave(x)) && Calm(s)
    ensures var s' := LeaveStep(s, i, x); i in s'.threads && ChainMove(s, s', i)
  {
    hide Served;
  }

  lemma ChainChain(s: State, i: nat, b: ChainPc, yes: bool)
    requires Ready(s, i, Chain(b)) && Calm(s) && Calm(ChainStep(s, i, b, yes))
    ensures var s' := ChainStep(s, i, b, yes); i in s'.threads && ChainMove(s, s', i)
  {
    hide Late, Served;
  }

  lemma UseChain(s: State, i: nat, pc: Pc)
    requires Ready(s, i, pc) && Calm(s)
    requires pc.FActive? || pc.FLock? || pc.FHeld? || pc.PDo? || pc.XLen? || pc.XDo? || pc.XDoing?
    ensures var s' := UseStep(s, i, pc); i in s'.threads && ChainMove(s, s', i)
  {
    hide Late, Served;
  }

  lemma ExecChain(s: State, i: nat, c: Choice)
    requires OwnersInv(s) && Enabled(s, i, c) && Plain(s, i) && Calm(s) && Calm(Exec(s, i, c))
    ensures var s' := Exec(s, i, c); i in s'.threads && ChainMove(s, s', i)
  {
    hide ChainMove, OwnersInv, CloseStep, HupStep, DropStep, ConnectStep, PollStep, GreetStep, LeaveStep, UseStep;
    ReadyHolds(s, i);
    hide Ready;
    var pc := s.threads[i];
    match pc
    case Close(u) => CloseChain(s, i, u);
    case Hup(h) => HupChain(s, i, h);
    case Drop(d) => DropChain(s, i, d);
    case Poll(p) => PollChain(s, i, p, c);
    case Greet(g) => GreetChain(s, i, g, c.yes);
    case Loop(l) => LoopChain(s, i, l, c.yes);
    case Leave(x) => LeaveChain(s, i, x);
    case Chain(b) => ChainChain(s, i, b, c.yes);
    case KStart => ConnectChain(s, i, KStart, c.task);
    case KLock => ConnectChain(s, i, KLock, c.task);
    case KProc => ConnectChain(s, i, KProc, c.task);
    case _ => UseChain(s, i, pc);
  }

  lemma ChainMoveKeeps(s: State, s': State, i: nat)
    requires OwnersInv(s) && CloseInv(s) && i in s.threads && i in s'.threads && Moves(s, s', i) && ChainMove(s, s', i)
    requires Calm(s) && Calm(s')
    ensures CloseInv(s')
  {
    ProcAfter(s, s', i);
    hide OwnersInv, WillClose;
    if NeedsChain(s') && s'.hist.callbacks == 0 && !WillClose(s.cfg, s'.threads[i]) {
      var j: nat;
      if WillClose(s.cfg, s.threads[i]) {
        HolderCloses(s);
        j := s.own.proc.value;
      } else {
        j :| j in s.threads && WillClose(s.cfg, s.threads[j]);
      }
      assert j in s'.threads && WillClose(s'.cfg, s'.threads[j]);
    }
  }

  /** Whoever keeps others from the lock has not run the chain and will look again. */
  lemma HolderCloses(s: State)
    requires OwnersInv(s) && CloseInv(s) && Calm(s) && s.words.processing && s.hist.callbacks == 0
    ensures s.own.proc.Some? && s.own.proc.value in s.threads && WillClose(s.cfg, s.threads[s.own.proc.value])
  {
    hide ResOwned, AllLocal;
  }

  /** A thread that joins has not run the chain, and everybody else is where they were. */
  lemma JoinKeepsClose(s: State, s': State, j: nat, pc: Pc)
    requires OwnersInv(s) && CloseInv(s) && Joins(s, s', j, pc) && Calm(s')
    requires s'.hist.callbacks == s.hist.callbacks && s'.words.closing == s.words.closing && !PastRun(pc)
    ensures CloseInv(s')
  {
    hide ResOwned, AllLocal, Local, Fits, HoldsConn, Pending;
    if NeedsChain(s') && s'.hist.callbacks == 0 {
      var i :| i in s.threads && WillClose(s.cfg, s.threads[i]);
      assert i in s'.threads && WillClose(s'.cfg, s'.threads[i]);
    }
  }

  lemma ExecKeepsClose(s: State, i: nat, c: Choice)
    requires OwnersInv(s) && CloseInv(s) && Calm(s) && Enabled(s, i, c) && Calm(Exec(s, i, c))
    ensures CloseInv(Exec(s, i, c))
  {
    var s' := Exec(s, i, c);
    if Plain(s, i) {
      hide Moves, ChainMove, OwnersInv, CloseInv, Exec;
      ExecMoves(s, i, c);
      ExecChain(s, i, c);
      ChainMoveKeeps(s, s', i);
    } else {
      hide OwnersInv, CloseInv, Joins, Moves;
      ReadyHolds(s, i);
      if s.threads[i].KProc? {
        var t := HandingOver(s, i);
        ConnectLetsGo(s, i);
        MovesKeepOwners(s, t, i);
        ChainMoveKeeps(s, t, i);
        ConnectSpawns(s, i, c.task);
        JoinKeepsClose(t, s', c.task, Greet(TConn));
      } else {
        var t := Unlocking(s, i);
        PollLetsGo(s, i, s.threads[i].p);
        MovesKeepOwners(s, t, i);
        ChainMoveKeeps(s, t, i);
        PollSpawns(s, i, s.threads[i].p, c);
        JoinKeepsClose(t, s', c.task, Loop(TStart));
      }
    }
  }

  lemma NextKeepsClose(s: State, s': State)
    requires OwnersInv(s) && CloseInv(s) && Calm(s) && Next(s, s') && Calm(s')
    ensures CloseInv(s')
  {
    hide OwnersInv, CloseInv, Exec, Enabled, Joins;
    if i: nat, pc: Pc :| i !in s.threads && Entry(s, pc) && s' == Enter(s, i, pc) {
      EnterJoins(s, i, pc);
      JoinKeepsClose(s, s', i, pc);
    } else if i, c :| Enabled(s, i, c) && s' == Exec(s, i, c) {
      ExecKeepsClose(s, i, c);
    } else {
      ReaderKeepsClose(s, s');
    }
  }

  lemma ReaderKeepsClose(s: State, s': State)
    requires CloseInv(s)
    requires s'.cfg == s.cfg && s'.threads == s.threads && s'.own == s.own && s'.hist == s.hist && s'.words == s.words
    ensures CloseInv(s')
  {
  }

  /** At rest with a chain owed, the chain has run exactly once. */
  lemma ClosedAtRest(s: State)
    requires OwnersInv(s) && CloseInv(s) && Calm(s) && Quiescent(s) && NeedsChain(s)
    ensures s.hist.callbacks == 1
  {
    hide OwnersInv;
  }
}
