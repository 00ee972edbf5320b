/** The invariants over whole runs, and the theorems they give about every reachable state
    of every connection and every read FIFO. */
module ConnectionRuns {
  import opened Connection
  import opened ConnectionOwners
  import opened ConnectionClose
  import opened ConnectionCallbacks
  import opened ConnectionInput
  import opened ConnectionWakeup

  /** Only a task can panic, and only a close callback of the user can break it. */
  predicate PanicsExplained(s: State)
  {
    (s.hist.panicked ==> s.cfg.fifo || Handled(s.cfg)) && (s.hist.broken ==> s.hist.panicked && s.cfg.onClose)
  }

  ghost predicate Inv(s: State)
  {
    && OwnersInv(s)
    && PanicsExplained(s)
    && (Calm(s) ==> CloseInv(s) && OrderInv(s) && InputInv(s))
    && (Calm(s) && Wakes(s.cfg) ==> WakeInv(s))
  }

  // ---------------------------------------------------------------- runs

  lemma InitInv(s: State)
    requires Init(s)
    ensures Inv(s)
  {
    hide OwnersInv;
    InitOwners(s);
  }

  /** What can never be undone. */
  lemma NextGrows(s: State, s': State)
    requires OwnersInv(s) && PanicsExplained(s) && Next(s, s')
    ensures Grows(s, s') && PanicsExplained(s')
  {
    if i: nat, pc: Pc :| i !in s.threads && Entry(s, pc) && s' == Enter(s, i, pc) {
      hide OwnersInv;
    } else if i, c :| Enabled(s, i, c) && s' == Exec(s, i, c) {
      ExecGrows(s, i, c);
    } else {
      hide OwnersInv;
    }
  }

  lemma ExecGrows(s: State, i: nat, c: Choice)
    requires OwnersInv(s) && PanicsExplained(s) && Enabled(s, i, c)
    ensures Grows(s, Exec(s, i, c)) && PanicsExplained(Exec(s, i, c))
  {
    ReadyHolds(s, i);
    PanicNeedsTask(s, i, c);
    if Plain(s, i) {
      hide OwnersInv, Ready, Exec, ResMove, LockMove, Grows, Local, PanicsExplained;
      ExecMoves(s, i, c);
    } else {
      hide OwnersInv;
    }
  }

  lemma PanicNeedsTask(s: State, i: nat, c: Choice)
    requires PanicsExplained(s) && Enabled(s, i, c) && Fits(s.cfg, s.threads[i])
    ensures PanicsExplained(Exec(s, i, c))
  {
  }

  lemma NextKeepsInv(s: State, s': State)
    requires Inv(s) && Next(s, s')
    ensures Inv(s')
  {
    hide Next, OwnersInv, CloseInv, OrderInv, InputInv, WakeInv;
    NextKeepsOwners(s, s');
    NextGrows(s, s');
    if Calm(s') {
      NextKeepsClose(s, s');
      NextKeepsOrder(s, s');
      NextKeepsInput(s, s');
      if Wakes(s.cfg) { NextKeepsWake(s, s'); }
    }
  }

  lemma {:induction false} RunKeepsInv(run: seq<State>, n: nat)
    requires IsRun(run) && n < |run|
    ensures Inv(run[n])
  {
    hide Inv, Next, Init;
    if n == 0 {
      InitInv(run[0]);
    } else {
      RunKeepsInv(run, n - 1);
      assert Next(run[n - 1], run[n - 1 + 1]);
      NextKeepsInv(run[n - 1], run[n]);
    }
  }

  lemma ReachableInv(s: State)
    requires Reachable(s)
    ensures Inv(s)
  {
    hide Inv, Init, Next;
    var run: seq<State> :| IsRun(run) && s == run[|run| - 1];
    RunKeepsInv(run, |run| - 1);
  }

  // ---------------------------------------------------------------- theorems

  /** The close-callback chain runs at most once, as long as no close callback panics in a task, and in a
      connection no other callback either. */
  lemma CloseCallbacksAtMostOnce(s: State)
    requires Reachable(s) && Calm(s)
    ensures s.hist.callbacks <= 1
  {
    hide Reachable, OwnersInv, OrderInv, InputInv;
    ReachableInv(s);
  }

  /** ... and it has run exactly once when a closed connection is at rest, if a handler is
      installed or the user called Close. */
  lemma CloseCallbacksExactlyOnce(s: State)
    requires Reachable(s) && Calm(s) && Quiescent(s)
    requires s.words.closing != Nobody && (Handled(s.cfg) || s.words.closing == User)
    ensures s.hist.callbacks == 1
  {
    hide Reachable, OwnersInv, CloseInv, OrderInv, InputInv, Quiescent;
    ReachableInv(s);
    ClosedAtRest(s);
  }

  /** OnConnect once, before any OnRequest; OnDisconnect once, after OnConnect returned. */
  lemma CallbackOrder(s: State)
    requires Reachable(s) && Calm(s)
    ensures s.hist.returned <= s.hist.connects <= 1 && s.hist.disconnects <= 1
    ensures s.cfg.onConnect && s.hist.disconnects == 1 ==> s.hist.returned == 1
    ensures forall i :: i in s.threads && s.threads[i] == Loop(TReq) && s.cfg.onConnect ==> s.hist.returned == 1
  {
    hide Reachable, OwnersInv, CloseInv, OrderInv, InputInv;
    ReachableInv(s);
    OrderOfCallbacks(s);
  }

  /** OnConnect and OnRequest calls never overlap. */
  lemma CallbacksNeverOverlap(s: State, i: nat, j: nat)
    requires Reachable(s) && Calm(s) && i in s.threads && j in s.threads && InCall(s.threads[i]) && InCall(s.threads[j])
    ensures i == j
  {
    hide Reachable, OwnersInv, CloseInv, OrderInv, InputInv;
    ReachableInv(s);
    CallsDoNotOverlap(s, i, j);
  }

  /** An open connection at rest has an empty input buffer. */
  lemma NoStrandedInput(s: State)
    requires Reachable(s) && Calm(s) && Quiescent(s)
    requires s.words.closing == Nobody && s.cfg.onRequest && (s.cfg.onConnect ==> s.hist.arrived)
    ensures s.input.len == 0
  {
    hide Reachable, OwnersInv, CloseInv, OrderInv, InputInv, Quiescent;
    ReachableInv(s);
    NothingStranded(s);
  }

  /** A parked reader is never forgotten. */
  lemma NoLostWakeup(s: State)
    requires Reachable(s) && Calm(s) && Wakes(s.cfg)
    ensures !Forgotten(s)
  {
    hide Reachable, OwnersInv, CloseInv, OrderInv, InputInv, WakeInv, Forgotten;
    ReachableInv(s);
    NeverForgotten(s);
  }

  lemma InvOwners(s: State)
    requires Inv(s)
    ensures OwnersInv(s) && PanicsExplained(s)
  {
    hide OwnersInv, CloseInv, OrderInv, InputInv, WakeInv;
  }
}
