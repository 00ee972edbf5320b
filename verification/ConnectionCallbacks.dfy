/** The order of the user's callbacks: OnConnect at most once and before any OnRequest, no
    two of them at the same time, OnDisconnect at most once and after OnConnect. */
module ConnectionCallbacks {
  import opened Connection
  import opened ConnectionOwners

  /** The tallies while nobody is inside `connecting`. */
  predicate Settled(phase: Phase, h: History)
  {
    && h.disconnects <= 1
    && (phase != Disconnected ==> h.disconnects == 0)
    && (if phase == NoneYet then h.connects == 0 && h.returned == 0 else h.connects == 1 && h.returned == 1)
  }

  /** The tallies given where the holder of `connecting` is. */
  predicate Ordered(phase: Phase, h: History, pc: Pc)
  {
    if pc.Greet? then
      match pc.g
      case TConn => phase == NoneYet && h.connects == 0 && h.returned == 0 && h.disconnects == 0
      case TConnRun => phase == Connected && h.connects == 0 && h.returned == 0 && h.disconnects == 0
      case TConnIn => phase == Connected && h.connects == 1 && h.returned == 0 && h.disconnects == 0
      case TConnChk => phase == Connected && h.connects == 1 && h.returned == 1 && h.disconnects == 0
      case TConnCas => phase == Connected && h.connects == 1 && h.returned == 1 && h.disconnects == 0
      case TConnDis => phase == Disconnected && h.connects == 1 && h.returned == 1 && h.disconnects == 0
      case TConnUnl => phase != NoneYet && Settled(phase, h)
    else
      && Settled(phase, h)
      && (pc.Drop? ==> phase != NoneYet)
      && (pc.Drop? && pc.d.HDisRun? ==> phase == Disconnected && h.disconnects == 0)
  }

  predicate BeforeDisconnect(pc: Pc)
  {
    pc.Hup? && (pc.h.HTrig? || pc.h.HDis? || pc.h.HDisSet? || pc.h.HDisCall?)
  }

  /** Without OnConnect, only the goroutine that won `closing` calls OnDisconnect. */
  ghost predicate Unordered(s: State)
  {
    && s.hist.connects == 0 && s.hist.returned == 0 && s.hist.disconnects <= 1
    && (s.words.closing == Nobody ==> s.hist.disconnects == 0)
    && forall i :: i in s.threads && BeforeDisconnect(s.threads[i]) ==> s.hist.disconnects == 0
  }

  ghost predicate OrderInv(s: State)
  {
    if s.cfg.onConnect then Ordered(s.words.phase, s.hist, At(s.threads, s.own.conn)) else Unordered(s)
  }

  // ---------------------------------------------------------------- one step

  function ConnSide(pc: Pc): Pc
  {
    if HoldsConn(pc) then pc else Done
  }

  predicate SameTallies(s: State, s': State)
  {
    && s'.hist.connects == s.hist.connects && s'.hist.returned == s.hist.returned
    && s'.hist.disconnects == s.hist.disconnects
  }

  /** Either the step is made at `connecting` and keeps the tallies in order, or it changes
      neither tallies nor phase. */
  predicate OrderMove(s: State, s': State, i: nat)
    requires i in s.threads && i in s'.threads
  {
    var pc, pc' := s.threads[i], s'.threads[i];
    if HoldsConn(pc) || HoldsConn(pc') then
      Ordered(s.words.phase, s.hist, ConnSide(pc)) ==> Ordered(s'.words.phase, s'.hist, ConnSide(pc'))
    else
      SameTallies(s, s') && s'.words.phase == s.words.phase
  }

  predicate OnceMove(s: State, s': State, i: nat)
    requires i in s.threads && i in s'.threads
  {
    var pc, pc' := s.threads[i], s'.threads[i];
    && s'.hist.connects == s.hist.connects && s'.hist.returned == s.hist.returned
    && (s.words.closing != Nobody ==> s'.words.closing != Nobody)
    && (if pc.Hup? && pc.h.HDisCall?
        then s'.hist.disconnects == s.hist.disconnects + 1 && !BeforeDisconnect(pc')
        else s'.hist.disconnects == s.hist.disconnects
             && (BeforeDisconnect(pc') ==> BeforeDisconnect(pc) || s.words.closing == Nobody))
  }

  predicate TallyMove(s: State, s': State, i: nat)
    requires i in s.threads && i in s'.threads
  {
    if s.cfg.onConnect then OrderMove(s, s', i) else OnceMove(s, s', i)
  }

  lemma CloseTally(s: State, i: nat, u: ClosePc)
    requires Ready(s, i, Close(u))
    ensures var s' := CloseStep(s, i, u); i in s'.threads && TallyMove(s, s', i)
  {
    hide Late, Served, Ordered;
  }

  lemma HupTally(s: State, i: nat, h: HupPc)
    requires Ready(s, i, Hup(h))
    ensures var s' := HupStep(s, i, h); i in s'.threads && TallyMove(s, s', i)
  {
    hide Late;
  }

  lemma DropTally(s: State, i: nat, d: DropPc)
    requires Ready(s, i, Drop(d))
    ensures var s' := DropStep(s, i, d); i in s'.threads && TallyMove(s, s', i)
  {
    hide Late;
  }

  lemma ConnectTally(s: State, i: nat, pc: Pc, task: nat)
    requires Ready(s, i, pc) && (pc.KStart? || pc.KLock? || (pc.KProc? && s.words.processing))
    ensures var s' := ConnectStep(s, i, pc, task); i in s'.threads && TallyMove(s, s', i)
  {
    hide Late, Served;
  }

  lemma PollTally(s: State, i: nat, p: PollPc, c: Choice)
    requires Ready(s, i, Poll(p)) && (p.PLock? ==> s.words.processing)
    ensures var s' := PollStep(s, i, p, c); i in s'.threads && TallyMove(s, s', i)
  {
    hide Late, Served, Ordered;
  }

  lemma GreetTally(s: State, i: nat, g: GreetPc, yes: bool)
    requires Ready(s, i, Greet(g)) && Calm(GreetStep(s, i, g, yes))
    ensures var s' := GreetStep(s, i, g, yes); i in s'.threads && TallyMove(s, s', i)
  {
    hide Late, Served;
  }

  lemma LoopTally(s: State, i: nat, l: LoopPc, yes: bool)
    requires Ready(s, i, Loop(l))
    ensures var s' := LoopStep(s, i, l, yes); i in s'.threads && TallyMove(s, s', i)
  {
    hide Late, Served, Ordered;
  }

  lemma LeaveTally(s: State, i: nat, x: LeavePc)
    requires Ready(s, i, Leave(x))
    ensures var s' := LeaveStep(s, i, x); i in s'.threads && TallyMove(s, s', i)
  {
    hide Late, Served, Ordered;
  }

  lemma ChainTally(s: State, i: nat, b: ChainPc, yes: bool)
    requires Ready(s, i, Chain(b))
    ensures var s' := ChainStep(s, i, b, yes); i in s'.threads && TallyMove(s, s', i)
  {
    hide Late, Served, Ordered;
  }

  lemma UseTally(s: State, i: nat, pc: Pc)
    requires Ready(s, i, pc)
    requires pc.FActive? || pc.FLock? || pc.FHeld? || pc.PDo? || pc.XLen? || pc.XDo? || pc.XDoing?
    ensures var s' := UseStep(s, i, pc); i in s'.threads && TallyMove(s, s', i)
  {
    hide Late, Served, Ordered;
  }

  lemma ExecTally(s: State, i: nat, c: Choice)
    requires OwnersInv(s) && Enabled(s, i, c) && Plain(s, i) && Calm(Exec(s, i, c))
    ensures var s' := Exec(s, i, c); i in s'.threads && TallyMove(s, s', i)
  {
    hide TallyMove, OwnersInv, CloseStep, HupStep, DropStep, ConnectStep, PollStep, LoopStep, LeaveStep, ChainStep, UseStep;
    ReadyHolds(s, i);
    hide Ready;
    var pc := s.threads[i];
    match pc
    case Close(u) => CloseTally(s, i, u);
    case Hup(h) => HupTally(s, i, h);
    case Drop(d) => DropTally(s, i, d);
    case Poll(p) => PollTally(s, i, p, c);
    case Greet(g) => GreetTally(s, i, g, c.yes);
    case Loop(l) => LoopTally(s, i, l, c.yes);
    case Leave(x) => LeaveTally(s, i, x);
    case Chain(b) => ChainTally(s, i, b, c.yes);
    case KStart => ConnectTally(s, i, KStart, c.task);
    case KLock => ConnectTally(s, i, KLock, c.task);
    case KProc => ConnectTally(s, i, KProc, c.task);
    case _ => UseTally(s, i, pc);
  }

  lemma TallyMoveKeeps(s: State, s': State, i: nat)
    requires OwnersInv(s) && OrderInv(s) && i in s.threads && i in s'.threads && Moves(s, s', i) && TallyMove(s, s', i)
    requires Calm(s')
    ensures OrderInv(s')
  {
    if s.cfg.onConnect {
      hide OwnersInv;
      ConnAfter(s, s', i);
    } else {
      hide ResOwned, LockOwned, AllLocal;
      forall j | j in s'.threads && BeforeDisconnect(s'.threads[j])
        ensures s'.hist.disconnects == 0
      {
        if j != i { assert s'.threads[j] == s.threads[j] && Won(s.threads[j]); }
      }
    }
  }

  lemma JoinKeepsOrder(s: State, s': State, j: nat, pc: Pc)
    requires OwnersInv(s) && OrderInv(s) && Joins(s, s', j, pc) && Calm(s')
    requires SameTallies(s, s') && s'.words.phase == s.words.phase && s'.words.closing == s.words.closing
    requires !BeforeDisconnect(pc) && !pc.Drop? && (pc.Greet? ==> pc.g.TConn? && s.words.phase == NoneYet)
    ensures OrderInv(s')
  {
    hide ResOwned, AllLocal, Local, Fits, HoldsProc, Pending;
  }

  lemma ExecKeepsOrder(s: State, i: nat, c: Choice)
    requires OwnersInv(s) && OrderInv(s) && Calm(s) && Enabled(s, i, c) && Calm(Exec(s, i, c))
    ensures OrderInv(Exec(s, i, c))
  {
    var s' := Exec(s, i, c);
    if Plain(s, i) {
      hide Moves, TallyMove, OwnersInv, OrderInv, Exec;
      ExecMoves(s, i, c);
      ExecTally(s, i, c);
      TallyMoveKeeps(s, s', i);
    } else {
      hide OwnersInv, OrderInv, Joins, Moves;
      ReadyHolds(s, i);
      if s.threads[i].KProc? {
        var t := HandingOver(s, i);
        ConnectLetsGo(s, i);
        MovesKeepOwners(s, t, i);
        TallyMoveKeeps(s, t, i);
        ConnectSpawns(s, i, c.task);
        JoinKeepsOrder(t, s', c.task, Greet(TConn));
      } else {
        var t := Unlocking(s, i);
        PollLetsGo(s, i, s.threads[i].p);
        MovesKeepOwners(s, t, i);
        TallyMoveKeeps(s, t, i);
        PollSpawns(s, i, s.threads[i].p, c);
        JoinKeepsOrder(t, s', c.task, Loop(TStart));
      }
    }
  }

  lemma NextKeepsOrder(s: State, s': State)
    requires OwnersInv(s) && OrderInv(s) && Calm(s) && Next(s, s') && Calm(s')
    ensures OrderInv(s')
  {
    hide OwnersInv, Ordered, Exec, Enabled, Joins;
    if i: nat, pc: Pc :| i !in s.threads && Entry(s, pc) && s' == Enter(s, i, pc) {
      EnterJoins(s, i, pc);
      JoinKeepsOrder(s, s', i, pc);
    } else if i, c :| Enabled(s, i, c) && s' == Exec(s, i, c) {
      ExecKeepsOrder(s, i, c);
    }
  }

  // ---------------------------------------------------------------- what users get

  /** Two callbacks never overlap. */
  lemma CallsDoNotOverlap(s: State, i: nat, j: nat)
    requires OwnersInv(s) && Calm(s) && i in s.threads && j in s.threads && InCall(s.threads[i]) && InCall(s.threads[j])
    ensures i == j
  {
    hide ResOwned, AllLocal;
  }

  /** OnRequest runs only after OnConnect returned; OnConnect runs once; OnDisconnect runs
      once, and not before OnConnect returned. */
  lemma OrderOfCallbacks(s: State)
    requires OwnersInv(s) && OrderInv(s) && Calm(s)
    ensures s.hist.returned <= s.hist.connects <= 1 && s.hist.disconnects <= 1
    ensures s.cfg.onConnect && s.hist.disconnects == 1 ==> s.hist.returned == 1
    ensures forall i :: i in s.threads && s.threads[i] == Loop(TReq) && s.cfg.onConnect ==> s.hist.returned == 1
  {
    hide ResOwned;
    forall i | i in s.threads && s.threads[i] == Loop(TReq) && s.cfg.onConnect
      ensures s.hist.returned == 1
    {
      assert Local(s, s.threads[i]);
      assert At(s.threads, s.own.conn).Greet? ==> s.own.proc == s.own.conn;
    }
  }
}
