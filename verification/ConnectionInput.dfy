/** Input that arrived is served: with a request callback installed, a live connection never
    comes to rest with bytes in its buffer, although a poller event starts a task only when
    it found the buffer empty. */
module ConnectionInput {
  import opened Prelude
  import opened Connection
  import opened ConnectionOwners

  /** The thread will look at the buffer, or close the connection. */
  predicate WillServe(pc: Pc)
  {
    || pc.Greet? || pc.Loop? || (pc.Close? && pc.u.UCas?)
    || (pc.Leave? && (pc.x.TClosing? || pc.x.TLen2? || pc.x.TRelock2?))
    || (pc.Poll? && (pc.p.PReq? || pc.p.PState? || pc.p.PLock?))
  }

  /** There are bytes to serve, and OnConnect will not do it. */
  predicate NeedsService(s: State)
  {
    s.words.closing == Nobody && s.cfg.onRequest && s.input.len > 0 && (s.cfg.onConnect ==> s.words.phase != NoneYet)
  }

  ghost predicate SomebodyServes(s: State)
  {
    exists i :: i in s.threads && WillServe(s.threads[i])
  }

  /** onConnect() was entered and its task is still to come, or the connection is closed. */
  predicate Expected(s: State)
  {
    s.cfg.onConnect && s.hist.arrived && s.words.phase == NoneYet ==> s.own.pend.Some? || s.words.closing != Nobody
  }

  ghost predicate InputInv(s: State)
  {
    && (NeedsService(s) ==> SomebodyServes(s))
    && Expected(s)
    && (forall i :: i in s.threads && s.threads[i].KLost? ==> s.words.closing != Nobody)
  }

  // ---------------------------------------------------------------- one step

  predicate ServeMove(s: State, s': State, i: nat)
    requires i in s.threads && i in s'.threads
  {
    var pc, pc' := s.threads[i], s'.threads[i];
    && (NeedsService(s') ==>
        WillServe(pc') || (NeedsService(s) && (WillServe(pc) ==> s.words.processing && s.own.proc != Some(i))))
    && (Expected(s) ==> Expected(s'))
    && (pc'.KLost? ==> s'.words.closing != Nobody)
  }

  lemma CloseServe(s: State, i: nat, u: ClosePc)
    requires Ready(s, i, Close(u)) && Calm(s)
    ensures var s' := CloseStep(s, i, u); i in s'.threads && ServeMove(s, s', i)
  {
    hide Late, Served;
  }

  lemma HupServe(s: State, i: nat, h: HupPc)
    requires Ready(s, i, Hup(h)) && Calm(s)
    ensures var s' := HupStep(s, i, h); i in s'.threads && ServeMove(s, s', i)
  {
    hide Late, Served;
  }

  lemma DropServe(s: State, i: nat, d: DropPc)
    requires Ready(s, i, Drop(d)) && Calm(s)
    ensures var s' := DropStep(s, i, d); i in s'.threads && ServeMove(s, s', i)
  {
    hide Late;
  }

  lemma ConnectServe(s: State, i: nat, pc: Pc, task: nat)
    requires Ready(s, i, pc) && Calm(s) && (pc.KStart? || pc.KLock? || (pc.KProc? && s.words.processing))
    requires (pc.KLock? && s.words.connecting) || pc.KProc? ==> s.words.closing != Nobody
    ensures var s' := ConnectStep(s, i, pc, task); i in s'.threads && ServeMove(s, s', i)
  {
    hide Late, Served;
  }

  lemma PollServe(s: State, i: nat, p: PollPc, c: Choice)
    requires Ready(s, i, Poll(p)) && Calm(s) && (p.PLock? ==> s.words.processing)
    ensures var s' := PollStep(s, i, p, c); i in s'.threads && ServeMove(s, s', i)
  {
    hide Late, Served;
  }

  lemma GreetServe(s: State, i: nat, g: GreetPc, yes: bool)
    requires Ready(s, i, Greet(g)) && Calm(s)
    ensures var s' := GreetStep(s, i, g, yes); i in s'.threads && ServeMove(s, s', i)
  {
    hide Late;
  }

  lemma LoopServe(s: State, i: nat, l: LoopPc, yes: bool)
    requires Ready(s, i, Loop(l)) && Calm(s) && Calm(LoopStep(s, i, l, yes))
    ensures var s' := LoopStep(s, i, l, yes); i in s'.threads && ServeMove(s, s', i)
  {
    hide Served;
  }

  lemma LeaveServe(s: State, i: nat, x: LeavePc)
    requires Ready(s, i, Leave(x)) && Calm(s)
    ensures var s' := LeaveStep(s, i, x); i in s'.threads && ServeMove(s, s', i)
  {
    hide Served;
  }

  lemma ChainServe(s: State, i: nat, b: ChainPc, yes: bool)
    requires Ready(s, i, Chain(b)) && Calm(s)
    ensures var s' := ChainStep(s, i, b, yes); i in s'.threads && ServeMove(s, s', i)
  {
    hide Late, Served;
  }

  lemma UseServe(s: State, i: nat, pc: Pc)
    requires Ready(s, i, pc) && Calm(s)
    requires pc.FActive? || pc.FLock? || pc.FHeld? || pc.PDo? || pc.XLen? || pc.XDo? || pc.XDoing?
    ensures var s' := UseStep(s, i, pc); i in s'.threads && ServeMove(s, s', i)
  {
    hide Late, Served;
  }

  /** onConnect() is kept from a lock only by a connection that is closing. */
  lemma KeptOutMeansClosed(s: State, i: nat)
    requires OwnersInv(s) && InputInv(s) && Calm(s) && i in s.threads
    requires (s.threads[i].KLock? && s.words.connecting) || (s.threads[i].KProc? && s.words.processing)
    ensures s.words.closing != Nobody
  {
    var j := if s.threads[i].KLock? then s.own.conn.value else s.own.proc.value;
    assert Local(s, s.threads[j]) && Local(s, s.threads[i]);
    assert s.own.pend == Some(i);
    assert Fits(s.cfg, s.threads[i]);
  }

  lemma ExecServe(s: State, i: nat, c: Choice)
    requires OwnersInv(s) && InputInv(s) && Enabled(s, i, c) && Plain(s, i) && Calm(s) && Calm(Exec(s, i, c))
    ensures var s' := Exec(s, i, c); i in s'.threads && ServeMove(s, s', i)
  {
    hide ServeMove, OwnersInv, InputInv, CloseStep, HupStep, DropStep, ConnectStep, PollStep, GreetStep, LeaveStep, ChainStep, UseStep;
    ReadyHolds(s, i);
    hide Ready;
    var pc := s.threads[i];
    match pc
    case Close(u) => CloseServe(s, i, u);
    case Hup(h) => HupServe(s, i, h);
    case Drop(d) => DropServe(s, i, d);
    case Poll(p) => PollServe(s, i, p, c);
    case Greet(g) => GreetServe(s, i, g, c.yes);
    case Loop(l) => LoopServe(s, i, l, c.yes);
    case Leave(x) => LeaveServe(s, i, x);
    case Chain(b) => ChainServe(s, i, b, c.yes);
    case KStart => ConnectServe(s, i, KStart, c.task);
    case KLock =>
      if s.words.connecting { KeptOutMeansClosed(s, i); }
      ConnectServe(s, i, KLock, c.task);
    case KProc =>
      KeptOutMeansClosed(s, i);
      ConnectServe(s, i, KProc, c.task);
    case _ => UseServe(s, i, pc);
  }

  /** The holder of the lock that kept others out serves, unless the connection is closed. */
  lemma HolderServes(s: State)
    requires OwnersInv(s) && Calm(s) && s.words.processing && s.words.closing == Nobody
    ensures s.own.proc.Some? && s.own.proc.value in s.threads && WillServe(s.threads[s.own.proc.value])
  {
    hide ResOwned, Fits;
    assert Local(s, s.threads[s.own.proc.value]);
  }

  lemma ServeMoveKeeps(s: State, s': State, i: nat)
    requires OwnersInv(s) && InputInv(s) && i in s.threads && i in s'.threads && Moves(s, s', i) && ServeMove(s, s', i)
    requires Calm(s)
    ensures InputInv(s')
  {
    hide OwnersInv, WillServe, ResMove, LockMove, Local;
    if NeedsService(s') && !WillServe(s'.threads[i]) {
      var j: nat;
      if WillServe(s.threads[i]) {
        HolderServes(s);
        j := s.own.proc.value;
      } else {
        j :| j in s.threads && WillServe(s.threads[j]);
      }
      assert j in s'.threads && WillServe(s'.threads[j]);
    }
  }

  lemma JoinKeepsInput(s: State, s': State, j: nat, pc: Pc)
    requires InputInv(s) && Joins(s, s', j, pc) && !pc.KLost?
    requires s'.words.closing == s.words.closing && s'.words.phase == s.words.phase && s'.input == s.input
    requires Expected(s')
    ensures InputInv(s')
  {
    hide Local, Fits, LockJoin, ResAgree;
    if NeedsService(s') {
      var i :| i in s.threads && WillServe(s.threads[i]);
      assert i in s'.threads && WillServe(s'.threads[i]);
    }
  }

  /** A task that starts takes over the service; the thread that started it may go. */
  lemma SpawnKeepsInput(s: State, s': State, i: nat, task: nat, pc: Pc)
    requires InputInv(s) && i in s.threads && task !in s.threads && (pc.Loop? || pc.Greet?)
    requires i in s'.threads && s'.threads == s.threads[i := s'.threads[i]][task := pc] && !s'.threads[i].KLost?
    requires s'.cfg == s.cfg && s'.words.closing == s.words.closing && s'.words.phase == s.words.phase && s'.input == s.input
    requires Expected(s')
    ensures InputInv(s')
  {
    assert task in s'.threads && WillServe(s'.threads[task]);
  }

  lemma ExecKeepsInput(s: State, i: nat, c: Choice)
    requires OwnersInv(s) && InputInv(s) && Calm(s) && Enabled(s, i, c) && Calm(Exec(s, i, c))
    ensures InputInv(Exec(s, i, c))
  {
    var s' := Exec(s, i, c);
    if Plain(s, i) {
      hide Moves, ServeMove, OwnersInv, InputInv, Exec;
      ExecMoves(s, i, c);
      ExecServe(s, i, c);
      ServeMoveKeeps(s, s', i);
    } else if s.threads[i].KProc? {
      hide OwnersInv;
      SpawnKeepsInput(s, s', i, c.task, Greet(TConn));
    } else {
      hide OwnersInv;
      SpawnKeepsInput(s, s', i, c.task, Loop(TStart));
    }
  }

  lemma ReaderKeepsInput(s: State, s': State)
    requires InputInv(s) && s'.cfg == s.cfg && s'.threads == s.threads && s'.own == s.own && s'.hist == s.hist
    requires s'.words == s.words && s'.input.len <= s.input.len
    ensures InputInv(s')
  {
  }

  lemma NextKeepsInput(s: State, s': State)
    requires OwnersInv(s) && InputInv(s) && Calm(s) && Next(s, s') && Calm(s')
    ensures InputInv(s')
  {
    hide OwnersInv, InputInv, Exec, Enabled, Joins;
    if i: nat, pc: Pc :| i !in s.threads && Entry(s, pc) && s' == Enter(s, i, pc) {
      EnterJoins(s, i, pc);
      assert Expected(s') by { EnterExpected(s, i, pc); }
      JoinKeepsInput(s, s', i, pc);
    } else if i, c :| Enabled(s, i, c) && s' == Exec(s, i, c) {
      ExecKeepsInput(s, i, c);
    } else {
      ReaderKeepsInput(s, s');
    }
  }

  lemma EnterExpected(s: State, i: nat, pc: Pc)
    requires InputInv(s) && Entry(s, pc)
    ensures Expected(Enter(s, i, pc))
  {
  }

  /** At rest and open, with OnRequest installed (and OnConnect, if any, called), the input
      buffer is empty. */
  lemma NothingStranded(s: State)
    requires OwnersInv(s) && InputInv(s) && Calm(s) && Quiescent(s)
    requires s.words.closing == Nobody && s.cfg.onRequest && (s.cfg.onConnect ==> s.hist.arrived)
    ensures s.input.len == 0
  {
    hide LockOwned, AllLocal, AllFit;
  }
}
