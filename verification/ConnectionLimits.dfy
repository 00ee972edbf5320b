/** Where the promises end: concrete runs that break them, and with those the exact
    configurations for which they hold in every run. */
module ConnectionLimits {
  import opened Prelude
  import opened Connection
  import opened ConnectionOwners
  import opened ConnectionWakeup
  import opened ConnectionRuns

  // ---------------------------------------------------------------- building runs

  lemma Extend(s: State, s': State)
    requires Reachable(s) && Next(s, s')
    ensures Reachable(s')
  {
    hide Next, Init;
    var run: seq<State> :| IsRun(run) && s == run[|run| - 1];
    var longer := run + [s'];
    forall k | 0 <= k < |longer| - 1
      ensures Next(longer[k], longer[k + 1])
    {
      if k < |run| - 1 { assert Next(run[k], run[k + 1]); }
    }
    assert IsRun(longer) && s' == longer[|longer| - 1];
  }

  lemma Start(s: State)
    requires Init(s)
    ensures Reachable(s)
  {
    hide Init;
    assert IsRun([s]) && s == [s][|[s]| - 1];
  }

  lemma Act(s: State, i: nat, c: Choice)
    requires Reachable(s) && Enabled(s, i, c)
    ensures Reachable(Exec(s, i, c))
  {
    hide Reachable, Enabled, Exec;
    Extend(s, Exec(s, i, c));
  }

  lemma Come(s: State, i: nat, pc: Pc)
    requires Reachable(s) && i !in s.threads && Entry(s, pc)
    ensures Reachable(Enter(s, i, pc))
  {
    hide Reachable, Entry, Enter;
    Extend(s, Enter(s, i, pc));
  }

  lemma Read(s: State, c: Choice)
    requires Reachable(s) && ReaderEnabled(s, c) && (s.reader.RIdle? ==> MayRead(s))
    ensures Reachable(ReaderStep(s, c))
  {
    hide Reachable, ReaderStep, ReaderEnabled, MayRead;
    Extend(s, ReaderStep(s, c));
  }

  function Fresh(cfg: Config): State
  {
    State(cfg, Words(Nobody, false, false, NoneYet), Resources(Open, Inuse, false, false, false), Input(0, NoSignal, 0), RIdle,
          Owners(None, None, None, None, None, None), History(0, 0, 0, 0, false, false, false), map[])
  }

  const GO := Choice(9, 1, true)
  const STOP := Choice(9, 0, false)

  // ---------------------------------------------------------------- a FIFO without handler

  /** A reader parks for one byte on an empty FIFO. */
  function Parked(cfg: Config): State
  {
    Fresh(cfg).(reader := RPark(1), input := Input(0, NoSignal, 1))
  }

  lemma ParkedIsReachable(cfg: Config)
    requires ValidConfig(cfg) && !cfg.onRequest
    ensures Reachable(Parked(cfg))
  {
    hide Reachable;
    var s0 := Fresh(cfg);
    Start(s0);
    var c := Choice(0, 1, false);
    Read(s0, c);
    var s1 := ReaderStep(s0, c);
    Read(s1, c);
    var s2 := ReaderStep(s1, c);
    Read(s2, c);
    var s3 := ReaderStep(s2, c);
    Read(s3, c);
    var s4 := ReaderStep(s3, c);
    Read(s4, c);
    assert ReaderStep(s4, c) == Parked(cfg);
  }

  /** The byte comes; the event finds the buffer empty, gets the lock, starts a task that has
      nothing to run, and takes that for having served the byte. */
  lemma ByteArrives(cfg: Config) returns (s: State)
    requires ValidConfig(cfg) && cfg.fifo && !cfg.onRequest
    ensures Reachable(s) && s.cfg == cfg && !s.hist.broken && !s.words.processing
    ensures s.reader == RPark(1) && s.input == Input(1, NoSignal, 1) && s.words.closing == Nobody
    ensures s.threads == map[0 := Poll(PReq(1))]
  {
    hide Reachable;
    ParkedIsReachable(cfg);
    var s0 := Parked(cfg);
    Come(s0, 0, PDo);
    var s1 := Enter(s0, 0, PDo);
    Act(s1, 0, GO);
    var s2 := Exec(s1, 0, GO);
    assert s2.threads == map[0 := Poll(PRead)];
    Act(s2, 0, GO);
    s := Exec(s2, 0, GO);
  }

  lemma ByteServed(cfg: Config) returns (s: State)
    requires ValidConfig(cfg) && cfg.fifo && !cfg.onRequest
    ensures Reachable(s) && s.cfg == cfg && !s.hist.broken
    ensures s.reader == RPark(1) && s.input == Input(1, NoSignal, 1) && s.words.closing == Nobody
    ensures s.threads == map[0 := Done, 9 := Loop(TStart)]
  {
    hide Reachable;
    var s3 := ByteArrives(cfg);
    Act(s3, 0, GO);
    var s4 := Exec(s3, 0, GO);
    assert s4.threads == map[0 := Poll(PLock(1))];
    Act(s4, 0, GO);
    var s5 := Exec(s4, 0, GO);
    assert s5.threads == map[0 := Poll(PNext), 9 := Loop(TStart)];
    Act(s5, 0, STOP);
    s := Exec(s5, 0, STOP);
  }

  lemma FifoForgetsReader(cfg: Config)
    requires ValidConfig(cfg) && cfg.fifo && !cfg.onRequest
    ensures exists s :: Reachable(s) && s.cfg == cfg && Calm(s) && Forgotten(s)
  {
    hide Reachable;
    var s := ByteServed(cfg);
    assert Forgotten(s);
  }

  /** No wake-up is ever lost, in any run, exactly if it is a connection or has a handler. */
  lemma WakeupsExactlyIf(cfg: Config)
    requires ValidConfig(cfg)
    ensures (forall s :: Reachable(s) && s.cfg == cfg && Calm(s) ==> !Forgotten(s)) <==> (cfg.fifo ==> cfg.onRequest)
  {
    hide Reachable, Forgotten, Calm;
    if cfg.fifo && !cfg.onRequest {
      FifoForgetsReader(cfg);
    } else {
      forall s | Reachable(s) && s.cfg == cfg && Calm(s)
        ensures !Forgotten(s)
      {
        NoLostWakeup(s);
      }
    }
  }

  // ---------------------------------------------------------------- a wait that fails with enough input

  lemma ReaderLooks(cfg: Config)
    requires ValidConfig(cfg) && !cfg.onRequest
    ensures Reachable(Fresh(cfg).(reader := RStat(1), input := Input(0, NoSignal, 1)))
  {
    hide Reachable;
    var s0 := Fresh(cfg);
    Start(s0);
    var c := Choice(0, 1, false);
    Read(s0, c);
    var s1 := ReaderStep(s0, c);
    Read(s1, c);
    var s2 := ReaderStep(s1, c);
    Read(s2, c);
    var s3 := ReaderStep(s2, c);
    Read(s3, c);
    assert ReaderStep(s3, c) == s0.(reader := RStat(1), input := Input(0, NoSignal, 1));
  }

  /** The reader has found the input too short; then a byte arrives and the peer hangs up, and the load of
      `closing` makes the wait fail with the byte there. */
  lemma WaitFailsWithEnough(cfg: Config) returns (s: State)
    requires ValidConfig(cfg) && !cfg.onRequest
    ensures Reachable(s) && s.cfg == cfg && s.reader == RStat(1) && s.input.len == 1 && s.words.closing == Poller
    ensures ReaderStep(s, GO).reader == RClear
  {
    hide Reachable;
    ReaderLooks(cfg);
    var s0 := Fresh(cfg).(reader := RStat(1), input := Input(0, NoSignal, 1));
    Come(s0, 0, PDo);
    var s1 := Enter(s0, 0, PDo);
    Act(s1, 0, GO);
    var s2 := Exec(s1, 0, GO);
    assert s2.threads == map[0 := Poll(PRead)];
    Act(s2, 0, GO);
    var s3 := Exec(s2, 0, GO);
    assert s3.threads == map[0 := Poll(PReq(1))];
    Come(s3, 1, Hup(HCas));
    var s4 := Enter(s3, 1, Hup(HCas));
    Act(s4, 1, GO);
    s := Exec(s4, 1, GO);
  }

  // ---------------------------------------------------------------- a callback that panics

  /** Nothing has been closed and nobody reads. */
  predicate Untouched(s: State, cfg: Config)
  {
    s.cfg == cfg && s.hist.callbacks == 0 && s.words.closing == Nobody && s.reader == RIdle
  }

  lemma ConnectStarts(cfg: Config) returns (s: State)
    requires ValidConfig(cfg) && cfg.onConnect
    ensures Reachable(s) && Untouched(s, cfg) && s.words.phase == NoneYet
    ensures s.threads == map[0 := Done, 9 := Greet(TConn)]
  {
    hide Reachable;
    var s0 := Fresh(cfg);
    Start(s0);
    Come(s0, 0, KStart);
    var s1 := Enter(s0, 0, KStart);
    Act(s1, 0, GO);
    var s2 := Exec(s1, 0, GO);
    Act(s2, 0, GO);
    var s3 := Exec(s2, 0, GO);
    assert s3.threads == map[0 := KProc];
    Act(s3, 0, GO);
    s := Exec(s3, 0, GO);
  }

  /** OnConnect panics: its task is about to unlock `processing`. */
  lemma ConnectPanics(cfg: Config) returns (s: State)
    requires ValidConfig(cfg) && cfg.onConnect
    ensures Reachable(s) && Untouched(s, cfg) && s.threads == map[0 := Done, 9 := Loop(TPanic)]
  {
    hide Reachable;
    var s0 := ConnectStarts(cfg);
    Act(s0, 9, GO);
    var s1 := Exec(s0, 9, GO);
    assert s1.threads == map[0 := Done, 9 := Greet(TConnRun)];
    Act(s1, 9, GO);
    var s2 := Exec(s1, 9, GO);
    assert s2.threads == map[0 := Done, 9 := Greet(TConnIn)];
    Act(s2, 9, STOP);
    s := Exec(s2, 9, STOP);
  }

  lemma RequestArrives(cfg: Config) returns (s: State)
    requires ValidConfig(cfg) && !cfg.fifo && !cfg.onConnect && cfg.onRequest
    ensures Reachable(s) && Untouched(s, cfg) && !s.words.processing && s.input.len == 1
    ensures s.threads == map[0 := Poll(PState(1))]
  {
    hide Reachable;
    var s0 := Fresh(cfg);
    Start(s0);
    Come(s0, 0, PDo);
    var s1 := Enter(s0, 0, PDo);
    Act(s1, 0, GO);
    var s2 := Exec(s1, 0, GO);
    assert s2.threads == map[0 := Poll(PRead)];
    Act(s2, 0, GO);
    var s3 := Exec(s2, 0, GO);
    assert s3.threads == map[0 := Poll(PReq(1))];
    Act(s3, 0, GO);
    s := Exec(s3, 0, GO);
  }

  /** A byte arrives, and OnRequest panics. */
  lemma RequestPanics(cfg: Config) returns (s: State)
    requires ValidConfig(cfg) && !cfg.fifo && !cfg.onConnect && cfg.onRequest
    ensures Reachable(s) && Untouched(s, cfg) && s.threads == map[0 := Poll(PNext), 9 := Loop(TPanic)]
  {
    hide Reachable;
    var s0 := RequestArrives(cfg);
    Act(s0, 0, GO);
    var s1 := Exec(s0, 0, GO);
    assert s1.threads == map[0 := Poll(PLock(1))];
    Act(s1, 0, GO);
    var s2 := Exec(s1, 0, GO);
    assert s2.threads == map[0 := Poll(PNext), 9 := Loop(TStart)];
    Act(s2, 9, GO);
    var s3 := Exec(s2, 9, GO);
    assert s3.threads == map[0 := Poll(PNext), 9 := Loop(TReq)];
    Act(s3, 9, STOP);
    s := Exec(s3, 9, STOP);
  }

  /** The user closes meanwhile, and finds `processing` unlocked by the deferred function. */
  lemma CloserMeetsPanic(s0: State, pc: Pc) returns (s: State)
    requires Reachable(s0) && s0.threads == map[0 := pc, 9 := Loop(TPanic)] && Untouched(s0, s0.cfg) && !s0.cfg.fifo
    ensures Reachable(s) && s.cfg == s0.cfg && s.hist.callbacks == 0 && s.words.closing == User && !s.words.processing
    ensures s.threads == map[0 := pc, 1 := Close(ULock), 9 := Leave(TPanicChk)]
  {
    hide Reachable;
    Come(s0, 1, Close(UCas));
    var s1 := Enter(s0, 1, Close(UCas));
    Act(s1, 1, GO);
    var s2 := Exec(s1, 1, GO);
    assert s2.threads == map[0 := pc, 1 := Close(UTrig), 9 := Loop(TPanic)];
    Act(s2, 1, GO);
    var s3 := Exec(s2, 1, GO);
    assert s3.threads == map[0 := pc, 1 := Close(ULock), 9 := Loop(TPanic)];
    Act(s3, 9, GO);
    s := Exec(s3, 9, GO);
  }

  /** The closer runs the chain, and the deferred function runs it again without asking. */
  lemma ChainRunsTwice(s0: State, pc: Pc) returns (s: State)
    requires Reachable(s0) && s0.threads == map[0 := pc, 9 := Loop(TPanic)] && Untouched(s0, s0.cfg) && !s0.cfg.fifo
    ensures Reachable(s) && s.cfg == s0.cfg && s.hist.callbacks == 2
  {
    hide Reachable;
    var s1 := CloserMeetsPanic(s0, pc);
    Act(s1, 1, GO);
    var s2 := Exec(s1, 1, GO);
    assert s2.threads == map[0 := pc, 1 := Chain(CbRun(false)), 9 := Leave(TPanicChk)];
    Act(s2, 1, GO);
    var s3 := Exec(s2, 1, GO);
    assert s3.threads[9] == Leave(TPanicChk) && s3.hist.callbacks == 1;
    Act(s3, 9, GO);
    var s4 := Exec(s3, 9, GO);
    assert s4.threads[9] == Chain(CbRun(false));
    Act(s4, 9, GO);
    s := Exec(s4, 9, GO);
  }

  // ---------------------------------------------------------------- a close callback that panics

  /** A byte arrives at a FIFO and starts a task. */
  lemma FifoTaskStarts(cfg: Config) returns (s: State)
    requires ValidConfig(cfg) && cfg.fifo
    ensures Reachable(s) && Untouched(s, cfg) && s.words.processing && s.input.len == 1
    ensures s.threads == map[0 := Poll(PNext), 9 := Loop(TStart)]
  {
    hide Reachable;
    var s0 := Fresh(cfg);
    Start(s0);
    Come(s0, 0, PDo);
    var s1 := Enter(s0, 0, PDo);
    Act(s1, 0, GO);
    var s2 := Exec(s1, 0, GO);
    assert s2.threads == map[0 := Poll(PRead)];
    Act(s2, 0, GO);
    var s3 := Exec(s2, 0, GO);
    assert s3.threads == map[0 := Poll(PReq(1))];
    Act(s3, 0, GO);
    var s4 := Exec(s3, 0, GO);
    assert s4.threads == map[0 := Poll(PLock(1))];
    Act(s4, 0, GO);
    s := Exec(s4, 0, GO);
  }

  /** The user closes; the task holds the lock, and goes through its first call. */
  lemma TaskMeetsClose(cfg: Config) returns (s: State)
    requires ValidConfig(cfg) && cfg.fifo
    ensures Reachable(s) && s.cfg == cfg && s.hist.callbacks == 0 && s.words.closing == User && s.words.processing
    ensures s.threads == map[0 := Poll(PNext), 1 := Close(UTrig), 9 := Loop(TStat)]
  {
    hide Reachable;
    var s0 := FifoTaskStarts(cfg);
    Come(s0, 1, Close(UCas));
    var s1 := Enter(s0, 1, Close(UCas));
    Act(s1, 1, GO);
    var s2 := Exec(s1, 1, GO);
    assert s2.threads == map[0 := Poll(PNext), 1 := Close(UTrig), 9 := Loop(TStart)];
    Act(s2, 9, GO);
    s := Exec(s2, 9, GO);
    if cfg.onRequest {
      assert s.threads == map[0 := Poll(PNext), 1 := Close(UTrig), 9 := Loop(TReq)];
      Act(s, 9, GO);
      s := Exec(s, 9, GO);
    }
  }

  /** The task runs the chain, and a callback panics. */
  lemma ChainPanics(cfg: Config) returns (s: State)
    requires ValidConfig(cfg) && cfg.fifo && cfg.onClose
    ensures Reachable(s) && s.cfg == cfg && s.hist.callbacks == 1 && s.words.closing == User
    ensures s.threads == map[0 := Poll(PNext), 1 := Close(UTrig), 9 := Loop(TPanic)]
  {
    hide Reachable;
    var s0 := TaskMeetsClose(cfg);
    Act(s0, 9, GO);
    var s1 := Exec(s0, 9, GO);
    assert s1.threads == map[0 := Poll(PNext), 1 := Close(UTrig), 9 := Loop(TLen(User))];
    Act(s1, 9, GO);
    var s2 := Exec(s1, 9, GO);
    assert s2.threads == map[0 := Poll(PNext), 1 := Close(UTrig), 9 := Loop(TBreak(User))];
    Act(s2, 9, GO);
    var s3 := Exec(s2, 9, GO);
    assert s3.threads == map[0 := Poll(PNext), 1 := Close(UTrig), 9 := Chain(CbRun(true))];
    Act(s3, 9, STOP);
    s := Exec(s3, 9, STOP);
  }

  /** The deferred function unlocks and closes, which takes the lock and runs the chain again. */
  lemma FifoClosesAgain(cfg: Config) returns (s: State)
    requires ValidConfig(cfg) && cfg.fifo && cfg.onClose
    ensures Reachable(s) && s.cfg == cfg && s.hist.callbacks == 1 && !s.words.processing
    ensures s.threads == map[0 := Poll(PNext), 1 := Close(UTrig), 9 := Close(UForce)]
  {
    hide Reachable;
    var s0 := ChainPanics(cfg);
    Act(s0, 9, GO);
    var s1 := Exec(s0, 9, GO);
    assert s1.threads == map[0 := Poll(PNext), 1 := Close(UTrig), 9 := Close(UCas)] && !s1.words.processing;
    Act(s1, 9, GO);
    s := Exec(s1, 9, GO);
  }

  lemma FifoChainRunsTwice(cfg: Config) returns (s: State)
    requires ValidConfig(cfg) && cfg.fifo && cfg.onClose
    ensures Reachable(s) && s.cfg == cfg && s.hist.callbacks == 2
  {
    hide Reachable;
    var s2 := FifoClosesAgain(cfg);
    Act(s2, 9, GO);
    var s3 := Exec(s2, 9, GO);
    assert s3.threads[9] == Close(ULock) && !s3.words.processing;
    Act(s3, 9, GO);
    var s4 := Exec(s3, 9, GO);
    assert s4.threads[9] == Chain(CbRun(false)) && s4.hist.callbacks == 1;
    Act(s4, 9, GO);
    s := Exec(s4, 9, GO);
  }

  lemma ConnectionChainRunsTwice(cfg: Config) returns (s: State)
    requires ValidConfig(cfg) && !cfg.fifo && Handled(cfg)
    ensures Reachable(s) && s.cfg == cfg && s.hist.callbacks == 2
  {
    hide Reachable;
    var s0: State;
    if cfg.onConnect {
      s0 := ConnectPanics(cfg);
      s := ChainRunsTwice(s0, Done);
    } else {
      s0 := RequestPanics(cfg);
      s := ChainRunsTwice(s0, Poll(PNext));
    }
  }

  /** Over all runs, whichever callback panics: the close callbacks run at most once exactly if it is a FIFO
      without close callbacks of the user, or a connection that never starts a task. */
  lemma AtMostOnceExactlyIf(cfg: Config)
    requires ValidConfig(cfg)
    ensures (forall s :: Reachable(s) && s.cfg == cfg ==> s.hist.callbacks <= 1)
            <==> if cfg.fifo then !cfg.onClose else !Handled(cfg)
  {
    hide Reachable;
    if cfg.fifo && cfg.onClose {
      var s := FifoChainRunsTwice(cfg);
      assert Reachable(s) && s.cfg == cfg && s.hist.callbacks == 2;
    } else if !cfg.fifo && Handled(cfg) {
      var s := ConnectionChainRunsTwice(cfg);
      assert Reachable(s) && s.cfg == cfg && s.hist.callbacks == 2;
    } else {
      forall s | Reachable(s) && s.cfg == cfg
        ensures s.hist.callbacks <= 1
      {
        NothingBreaks(s);
        CloseCallbacksAtMostOnce(s);
      }
    }
  }

  lemma NothingBreaks(s: State)
    requires Reachable(s) && if s.cfg.fifo then !s.cfg.onClose else !Handled(s.cfg)
    ensures Calm(s)
  {
    hide Reachable, OwnersInv;
    ReachableInv(s);
  }
}
