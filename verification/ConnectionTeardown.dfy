/** The end of a connection: when the finalizer closes the buffers nobody is inside Flush or Write, and the
    poller is not between do and done.  Release asks the operator it once had, which by then can be
    somebody else's. */
module ConnectionTeardown {
  import opened Connection
  import opened ConnectionOwners
  import opened ConnectionRuns
  import opened ConnectionLimits

  // ---------------------------------------------------------------- the poller stays out

  /** Once the operator has been freed, no event of this connection is being handled. */
  ghost predicate PollerOut(s: State)
  {
    s.res.freed ==> forall i :: i in s.threads ==> !s.threads[i].Poll?
  }

  /** A step moves its thread, and may start a task. */
  lemma OthersStay(s: State, i: nat, c: Choice)
    requires OwnersInv(s) && Enabled(s, i, c)
    ensures var s' := Exec(s, i, c);
            && i in s.threads && i in s'.threads
            && (forall j :: j in s'.threads && j != i && j in s.threads ==> s'.threads[j] == s.threads[j])
            && (forall j :: j in s'.threads && j !in s.threads ==> s'.threads[j].Greet? || s'.threads[j].Loop?)
  {
    ReadyHolds(s, i);
    if Plain(s, i) {
      hide OwnersInv, Exec, Ready, LocalMove, ResMove, LockMove, Fits;
      ExecMoves(s, i, c);
    } else {
      hide OwnersInv, Ready;
    }
  }

  /** What a thread can come to when others use the operator. */
  lemma MoverGoes(s: State, i: nat, c: Choice)
    requires Enabled(s, i, c) && i in Exec(s, i, c).threads
    ensures var pc, pc' := s.threads[i], Exec(s, i, c).threads[i];
            && (pc'.Poll? ==> pc.Poll? || (pc.PDo? && s.res.op == Inuse && !s.res.handed))
            && (pc'.XDoing? ==> pc.XDo?)
  {
    var pc := s.threads[i];
    if pc.PDo? || pc.XLen? || pc.XDo? || pc.XDoing? || pc.FActive? || pc.FLock? || pc.FHeld? {
      hide CloseStep, HupStep, DropStep, ConnectStep, PollStep, GreetStep, LoopStep, LeaveStep, ChainStep;
    } else if pc.Close? || pc.Hup? || pc.Drop? || pc.KStart? || pc.KLock? || pc.KProc? {
      hide UseStep, PollStep, GreetStep, LoopStep, LeaveStep, ChainStep;
    } else {
      hide UseStep, CloseStep, HupStep, DropStep, ConnectStep;
    }
  }

  lemma OnlyFinFree(s: State, i: nat, c: Choice)
    requires Enabled(s, i, c) && !s.res.freed && Exec(s, i, c).res.freed
    ensures s.threads[i] == Chain(FinFree) && s.res.op != Doing
  {
  }

  /** Freeing waits for whoever is between do and done. */
  lemma FreeIsLast(s: State, i: nat, c: Choice)
    requires OwnersInv(s) && Enabled(s, i, c) && !s.res.freed && Exec(s, i, c).res.freed
    ensures s.threads[i] == Chain(FinFree) && forall j :: j in s.threads ==> !HoldsOp(s.threads[j])
  {
    hide LockOwned, AllLocal, AllFit, Exec;
    OnlyFinFree(s, i, c);
  }

  lemma FreedAgrees(s: State)
    requires OwnersInv(s)
    ensures s.res.freed && !s.res.handed ==> s.res.op == Unused
  {
    hide ResOwned, LockOwned, AllLocal;
  }

  /** And nobody gets there afterwards. */
  lemma ExecKeepsOut(s: State, i: nat, c: Choice)
    requires OwnersInv(s) && PollerOut(s) && Enabled(s, i, c)
    ensures PollerOut(Exec(s, i, c))
  {
    hide OwnersInv, Exec, Enabled;
    OthersStay(s, i, c);
    MoverGoes(s, i, c);
    FreedAgrees(s);
    if Exec(s, i, c).res.freed && !s.res.freed { FreeIsLast(s, i, c); }
  }

  lemma NextKeepsOut(s: State, s': State)
    requires OwnersInv(s) && PollerOut(s) && Next(s, s')
    ensures PollerOut(s')
  {
    hide OwnersInv, Exec, Enabled;
    if i: nat, pc: Pc :| i !in s.threads && Entry(s, pc) && s' == Enter(s, i, pc) {
    } else if i, c :| Enabled(s, i, c) && s' == Exec(s, i, c) {
      ExecKeepsOut(s, i, c);
    }
  }

  lemma {:induction false} RunKeepsOut(run: seq<State>, n: nat)
    requires IsRun(run) && n < |run|
    ensures OwnersInv(run[n]) && PollerOut(run[n])
  {
    hide Inv, Next, OwnersInv, PanicsExplained;
    RunKeepsInv(run, n);
    InvOwners(run[n]);
    if n == 0 {
      assert PollerOut(run[0]);
    } else {
      hide PollerOut, Init;
      RunKeepsOut(run, n - 1);
      assert Next(run[n - 1], run[n - 1 + 1]);
      NextKeepsOut(run[n - 1], run[n]);
    }
  }

  // ---------------------------------------------------------------- theorems

  /** When the finalizer closes the buffers, nobody is inside Flush or Write and the poller is not between do
      and done, whatever panicked; nor is a Release, unless the operator has been handed out again. */
  lemma TeardownExclusion(s: State)
    requires Reachable(s) && (s.res.closed || exists i :: i in s.threads && s.threads[i] == Chain(FinClose))
    ensures s.res.freed && (s.cfg.fifo || s.res.flushing == Stopped)
    ensures forall i :: i in s.threads ==> !s.threads[i].Poll?
    ensures !s.cfg.fifo ==> forall i :: i in s.threads ==> !HoldsFlush(s.threads[i])
    ensures !s.res.handed ==> forall i :: i in s.threads ==> !HoldsOp(s.threads[i])
  {
    hide Next, Init;
    var run: seq<State> :| IsRun(run) && s == run[|run| - 1];
    RunKeepsOut(run, |run| - 1);
    hide LockOwned, AllFit;
    if i :| i in s.threads && s.threads[i] == Chain(FinClose) {
      assert Local(s, s.threads[i]);
    }
  }

  /** ... and for good: `flushing` is never taken again, no event of this connection is handled again, and as
      long as nobody else has the operator its word is not taken either. */
  lemma {:induction false} ShutForGood(run: seq<State>, m: nat, n: nat)
    requires IsRun(run) && m <= n < |run|
    ensures run[m].res.flushing == Stopped ==> run[n].res.flushing == Stopped
    ensures run[m].res.freed ==> run[n].res.freed && forall i :: i in run[n].threads ==> !run[n].threads[i].Poll?
    ensures run[m].res.freed && !run[n].res.handed ==> run[n].res.op == Unused
  {
    hide Next, Init;
    RunKeepsOut(run, n);
    hide ResOwned, AllLocal, LockOwned, AllWon;
    if m < n {
      ShutForGood(run, m, n - 1);
      RunKeepsInv(run, n - 1);
      InvOwners(run[n - 1]);
      assert Next(run[n - 1], run[n - 1 + 1]);
      NextGrows(run[n - 1], run[n]);
    }
  }

  // ---------------------------------------------------------------- a late Release

  /** Nobody else gets the operator. */
  ghost predicate NeverHanded(run: seq<State>)
  {
    forall k :: 0 <= k < |run| ==> !run[k].res.handed
  }

  /** Release is not called, and not under way, once the operator has been freed. */
  ghost predicate NoLateRelease(run: seq<State>)
  {
    forall k, i :: 0 <= k < |run| && run[k].res.freed && i in run[k].threads ==> !run[k].threads[i].XLen? && !run[k].threads[i].XDo?
  }

  /** No Release of this connection is between do and done of an operator it has given back. */
  ghost predicate Undisturbed(s: State)
  {
    s.res.freed ==> forall i :: i in s.threads ==> !s.threads[i].XDoing?
  }

  lemma ExecUndisturbed(s: State, i: nat, c: Choice)
    requires OwnersInv(s) && Undisturbed(s) && Enabled(s, i, c) && (s.res.freed ==> i in s.threads && !s.threads[i].XDo?)
    ensures Undisturbed(Exec(s, i, c))
  {
    hide OwnersInv, Exec, Enabled;
    OthersStay(s, i, c);
    MoverGoes(s, i, c);
    if Exec(s, i, c).res.freed && !s.res.freed { FreeIsLast(s, i, c); }
  }

  lemma NextUndisturbed(s: State, s': State)
    requires OwnersInv(s) && Undisturbed(s) && Next(s, s')
    requires s.res.freed ==> forall i :: i in s.threads ==> !s.threads[i].XDo?
    ensures Undisturbed(s')
  {
    hide OwnersInv, Exec, Enabled;
    if i: nat, pc: Pc :| i !in s.threads && Entry(s, pc) && s' == Enter(s, i, pc) {
    } else if i, c :| Enabled(s, i, c) && s' == Exec(s, i, c) {
      OthersStay(s, i, c);
      ExecUndisturbed(s, i, c);
    }
  }

  lemma {:induction false} QuietRun(run: seq<State>, n: nat)
    requires IsRun(run) && NoLateRelease(run) && n < |run|
    ensures Undisturbed(run[n])
  {
    hide Next, OwnersInv;
    if n > 0 {
      hide Init, Undisturbed;
      QuietRun(run, n - 1);
      RunKeepsOut(run, n - 1);
      assert Next(run[n - 1], run[n - 1 + 1]);
      NextUndisturbed(run[n - 1], run[n]);
    }
  }

  lemma OnceRun(run: seq<State>, n: nat)
    requires IsRun(run) && NeverHanded(run) && n < |run|
    ensures Undisturbed(run[n])
  {
    hide IsRun;
    RunKeepsOut(run, n);
    hide LockOwned, AllLocal, AllFit, PollerOut;
  }

  /** The user closes, up to the finalizer's last step. */
  lemma IsFreed(cfg: Config) returns (s: State)
    requires ValidConfig(cfg)
    ensures Reachable(s) && s.cfg == cfg && s.input.len == 0 && s.res.op == Unused && s.res.freed
    ensures s.threads == map[1 := Chain(FinClose)]
  {
    hide Reachable;
    var s0 := IsClosing(cfg);
    Act(s0, 1, GO);
    s := Exec(s0, 1, GO);
    if !cfg.fifo {
      assert s.threads == map[1 := Chain(FinStop)];
      Act(s, 1, GO);
      s := Exec(s, 1, GO);
    }
    assert s.threads == map[1 := Chain(FinFree)];
    Act(s, 1, GO);
    s := Exec(s, 1, GO);
  }

  lemma IsClosing(cfg: Config) returns (s: State)
    requires ValidConfig(cfg)
    ensures Reachable(s) && s.cfg == cfg && s.input.len == 0 && s.res == Fresh(cfg).res && s.threads == map[1 := Chain(CbRun(false))]
  {
    hide Reachable;
    var s0 := Fresh(cfg);
    Start(s0);
    Come(s0, 1, Close(UCas));
    var s1 := Enter(s0, 1, Close(UCas));
    Act(s1, 1, GO);
    var s2 := Exec(s1, 1, GO);
    assert s2.threads == map[1 := Close(UTrig)];
    Act(s2, 1, GO);
    var s3 := Exec(s2, 1, GO);
    assert s3.threads == map[1 := Close(ULock)];
    Act(s3, 1, GO);
    s := Exec(s3, 1, GO);
  }

  /** Somebody else gets the operator, and Release is called. */
  lemma IsHanded(cfg: Config) returns (s: State)
    requires ValidConfig(cfg)
    ensures Reachable(s) && s.cfg == cfg && s.input.len == 0 && s.res.op == Inuse && s.res.freed
    ensures s.threads == map[1 := Chain(FinClose), 2 := XDo]
  {
    hide Reachable;
    var s0 := IsFreed(cfg);
    var s1 := Elsewhere(s0, Inuse);
    Reuse(s0, Inuse);
    Come(s1, 2, XLen);
    var s2 := Enter(s1, 2, XLen);
    Act(s2, 2, GO);
    s := Exec(s2, 2, GO);
  }

  lemma Reuse(s: State, op: Operator)
    requires Reachable(s) && s.res.freed && MovesOn(s.res.op, op)
    ensures Reachable(Elsewhere(s, op))
  {
    hide Reachable, MovesOn, Elsewhere;
    Extend(s, Elsewhere(s, op));
  }

  /** It takes the word, and the buffers are closed under it. */
  lemma ReleaseTakesTheWord(cfg: Config) returns (s: State)
    requires ValidConfig(cfg)
    ensures Reachable(s) && s.cfg == cfg && s.res.freed && s.res.closed && 2 in s.threads && s.threads[2] == XDoing
  {
    hide Reachable;
    var s3 := IsHanded(cfg);
    Act(s3, 2, GO);
    var s4 := Exec(s3, 2, GO);
    assert s4.threads == map[1 := Chain(FinClose), 2 := XDoing];
    Act(s4, 1, GO);
    s := Exec(s4, 1, GO);
  }

  /** Over all runs: no Release is ever between do and done of an operator that was given back, exactly if
      nobody else gets the operator, or Release is neither called nor under way after that. */
  lemma UndisturbedExactlyIf(cfg: Config, once: bool, quiet: bool)
    requires ValidConfig(cfg)
    ensures (forall run: seq<State> ::
               IsRun(run) && run[|run| - 1].cfg == cfg && (once ==> NeverHanded(run)) && (quiet ==> NoLateRelease(run))
               ==> Undisturbed(run[|run| - 1]))
            <==> once || quiet
  {
    hide NeverHanded, NoLateRelease, Next, Init;
    if once || quiet {
      hide Undisturbed;
      forall run: seq<State> | IsRun(run) && (once ==> NeverHanded(run)) && (quiet ==> NoLateRelease(run))
        ensures Undisturbed(run[|run| - 1])
      {
        if once { OnceRun(run, |run| - 1); } else { QuietRun(run, |run| - 1); }
      }
    } else {
      var s := ReleaseTakesTheWord(cfg);
      var run: seq<State> :| IsRun(run) && s == run[|run| - 1];
      assert !Undisturbed(run[|run| - 1]);
    }
  }
}
