/** A queue with one shard: every ring entry names it, so that empty Adds announce too often and overwrite
    each other, but nothing is lost. */
module ShardQueueSingle {
  import opened ShardQueue
  import opened ShardQueueSafety

  /** Who finds the shard filled has announced it, or it is announced by an unread entry, or the task is
      about to swap it. */
  ghost predicate Alerted(s: State)
    requires Shaped(s)
  {
    s.mem.getters[0].len > 0 ==>
      s.ring.taken < |s.ring.written| || exists i :: i in s.threads && Carries(s.threads[i])
  }

  /** If the shard is filled after the step, there is an unread entry, or the mover will see to it, or it was
      filled before and the mover had nothing to do with it. */
  predicate Alert(s: State, s': State, i: nat)
    requires Shaped(s) && Shaped(s') && i in s.threads && i in s'.threads
  {
    s'.mem.getters[0].len > 0 ==>
      || s'.ring.taken < |s'.ring.written| || Carries(s'.threads[i])
      || (s.mem.getters[0].len > 0 && !Carries(s.threads[i]) && s'.ring.taken == s.ring.taken && s'.ring.written == s.ring.written
          && (forall j :: j in s.threads && j != i ==> j in s'.threads && s'.threads[j] == s.threads[j]))
  }

  lemma AddAlert(s: State, i: nat, c: Choice)
    requires Ready(s, i, c) && s.size == 1 && InAdd(s.threads[i]) && Shaped(AddStep(s, i, c))
    ensures var s' := AddStep(s, i, c); i in s'.threads && Alert(s, s', i)
  {
  }

  lemma TriggerAlert(s: State, i: nat, c: Choice)
    requires Ready(s, i, c) && s.size == 1 && InTriggering(s.threads[i]) && s.ring.taken <= |s.ring.written| && Shaped(TriggerStep(s, i, c))
    ensures var s' := TriggerStep(s, i, c); i in s'.threads && Alert(s, s', i)
  {
  }

  lemma SwapAlert(s: State, i: nat, c: Choice)
    requires Ready(s, i, c) && s.size == 1 && InSwap(s.threads[i]) && Shaped(SwapStep(s, i, c))
    ensures var s' := SwapStep(s, i, c); i in s'.threads && Alert(s, s', i)
  {
  }

  lemma TaskAlert(s: State, i: nat, c: Choice)
    requires Ready(s, i, c) && s.size == 1 && InRest(s.threads[i]) && Shaped(TaskStep(s, i, c))
    ensures var s' := TaskStep(s, i, c); i in s'.threads && Alert(s, s', i)
  {
  }

  lemma CloseAlert(s: State, i: nat, c: Choice)
    requires Ready(s, i, c) && s.size == 1 && InClose(s.threads[i]) && Shaped(CloseStep(s, i, c))
    ensures var s' := CloseStep(s, i, c); i in s'.threads && Alert(s, s', i)
  {
  }

  lemma AlertKept(s: State, s': State, i: nat)
    requires Shaped(s) && Shaped(s') && Alerted(s) && i in s.threads && i in s'.threads && Alert(s, s', i)
    ensures Alerted(s')
  {
    if s'.mem.getters[0].len > 0 && !(s'.ring.taken < |s'.ring.written|) && !Carries(s'.threads[i]) {
      var j :| j in s.threads && Carries(s.threads[j]);
      assert j in s'.threads && Carries(s'.threads[j]);
    }
  }

  lemma SizeKept(s: State, i: nat, c: Choice)
    requires Enabled(s, i, c)
    ensures Exec(s, i, c).size == s.size
  {
  }

  lemma TakenIsWritten(s: State)
    requires Inv(s)
    ensures s.ring.taken <= |s.ring.written|
  {
    hide OwnersInv, MemoryInv, Watched;
  }

  lemma ExecAlerts(s: State, i: nat, c: Choice)
    requires Inv(s) && s.size == 1 && Alerted(s) && Enabled(s, i, c)
    ensures Inv(Exec(s, i, c)) && Exec(s, i, c).size == 1 && Alerted(Exec(s, i, c))
  {
    ExecKept(s, i, c);
    SizeKept(s, i, c);
    TakenIsWritten(s);
    hide OwnersInv, Watched, Counted, MemoryInv, Alerted, Alert, Remembers, AddStep, TriggerStep, SwapStep, CloseStep, TaskStep;
    ReadyHolds(s, i, c);
    hide Ready;
    var pc := s.threads[i];
    if InAdd(pc) { AddAlert(s, i, c); }
    else if InTriggering(pc) { TriggerAlert(s, i, c); }
    else if InSwap(pc) { SwapAlert(s, i, c); }
    else if InClose(pc) { CloseAlert(s, i, c); }
    else { TaskAlert(s, i, c); }
    AlertKept(s, Exec(s, i, c), i);
  }

  lemma ArriveAlerts(s: State, s': State, empties: bool)
    requires Inv(s) && s.size == 1 && Alerted(s) && Arrive(s, s', empties)
    ensures Inv(s') && s'.size == 1 && Alerted(s')
  {
    ArriveKept(s, s', empties);
    hide OwnersInv, Watched, Counted, MemoryInv;
    var i: nat, pc: Pc :| i !in s.threads && (pc.CloseCas? || (pc.Enter? && (empties || pc.gts != []))) && s' == Goto(s, i, pc);
    if s.mem.getters[0].len > 0 && !(s.ring.taken < |s.ring.written|) {
      var j :| j in s.threads && Carries(s.threads[j]);
      assert j in s'.threads && Carries(s'.threads[j]);
    }
  }

  lemma InitAlerts(s: State)
    requires Init(s) && s.size == 1
    ensures Inv(s) && Alerted(s)
  {
    InitOwners(s);
    InitRest(s);
    hide OwnersInv, MemoryInv, Watched, Counted;
  }

  /** The number of shards never changes. */
  lemma {:induction false} RunSize(run: seq<State>, empties: bool, n: nat)
    requires IsRun(run, empties) && n < |run|
    ensures run[n].size == run[0].size
  {
    hide Init, Enabled, Exec;
    if n > 0 {
      RunSize(run, empties, n - 1);
      assert Next(run[n - 1], run[n - 1 + 1], empties);
      if !Arrive(run[n - 1], run[n], empties) {
        var i, c :| Enabled(run[n - 1], i, c) && run[n] == Exec(run[n - 1], i, c);
        SizeKept(run[n - 1], i, c);
      }
    }
  }

  lemma {:induction false} RunKeepsInv(run: seq<State>, empties: bool, n: nat)
    requires IsRun(run, empties) && run[0].size == 1 && n < |run|
    ensures Inv(run[n]) && run[n].size == 1 && Alerted(run[n])
  {
    hide Inv, Alerted, Init, Arrive, Enabled;
    if n == 0 {
      InitAlerts(run[0]);
    } else {
      RunKeepsInv(run, empties, n - 1);
      assert Next(run[n - 1], run[n - 1 + 1], empties);
      if Arrive(run[n - 1], run[n], empties) {
        ArriveAlerts(run[n - 1], run[n], empties);
      } else {
        var i, c :| Enabled(run[n - 1], i, c) && run[n] == Exec(run[n - 1], i, c);
        ExecAlerts(run[n - 1], i, c);
      }
    }
  }

  /** With one shard every accepted getter has been called at rest, empty Adds or not. */
  lemma ExactlyOnceAtRest(s: State, empties: bool)
    requires Reachable(s, empties) && s.size == 1 && Quiescent(s) && !s.mem.failed
    ensures s.mem.called == s.mem.accepted
  {
    hide Inv, Alerted, Init, Next;
    var run: seq<State> :| IsRun(run, empties) && s == run[|run| - 1];
    RunSize(run, empties, |run| - 1);
    RunKeepsInv(run, empties, |run| - 1);
    NothingLeftAtRest(s, empties);
    NothingWaits(s);
    OneAlike(s.mem.accepted, s.mem.called, Contents(s.mem.heap, s.mem.getters[0]));
  }

  lemma OneAlike(a: seq<seq<Getter>>, b: seq<seq<Getter>>, rest: seq<Getter>)
    requires |a| == |b| == 1 && rest == [] && a[0] == b[0] + rest
    ensures a == b
  {
    assert a[0] == b[0];
    assert a == [a[0]] && b == [b[0]];
  }

  lemma NothingWaits(s: State)
    requires Shaped(s) && Alerted(s) && Quiescent(s) && s.ring.taken == |s.ring.written|
    ensures s.mem.getters[0].len == 0
  {
  }
}
