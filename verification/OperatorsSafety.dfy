/** Freed operators, stale events and the do/done word: what every run keeps. */
module OperatorsSafety {
  import opened Prelude
  import opened Handler
  import opened Operators

  // ---------------------------------------------------------------- lists

  /** One operator changes, but not to or from the phase the list is about. */
  lemma ListsOther(ops: seq<Operator>, s: seq<nat>, p: Phase, i: nat, o: Operator)
    requires Lists(ops, s, p) && i < |ops| && (ops[i].phase == p <==> o.phase == p)
    ensures Lists(ops[i := o], s, p)
  {
  }

  lemma ListsPop(ops: seq<Operator>, s: seq<nat>, p: Phase, o: Operator)
    requires Lists(ops, s, p) && s != [] && o.phase != p
    ensures s[0] < |ops| && Lists(ops[s[0] := o], s[1..], p)
  {
    var ops', t := ops[s[0] := o], s[1..];
    forall i | 0 <= i < |ops'| && ops'[i].phase == p ensures i in t {
      var k :| 0 <= k < |s| && s[k] == i;
      assert k != 0 && t[k - 1] == i;
    }
  }

  lemma ListsPush(ops: seq<Operator>, s: seq<nat>, p: Phase, i: nat, o: Operator)
    requires Lists(ops, s, p) && i < |ops| && ops[i].phase != p && o.phase == p
    ensures Lists(ops[i := o], s + [i], p)
  {
    var ops', t := ops[i := o], s + [i];
    forall j | 0 <= j < |ops'| && ops'[j].phase == p ensures j in t {
      if j == i { assert t[|s|] == i; } else { assert j in s; }
    }
  }

  lemma FilledKeeps(s: State, more: nat)
    requires Inv(s)
    ensures Inv(Filled(s, more))
  {
    var t, n := Filled(s, more), |s.ops|;
    if s.first == [] {
      forall i | 0 <= i < |t.ops| && t.ops[i].phase.Free? ensures i in t.first {
        assert i < n ==> i in s.first;
        assert t.first[more - 1 - (i - n)] == i;
      }
      forall i | 0 <= i < |t.ops| && t.ops[i].phase.Listed? ensures i in t.freelist { assert i < n; }
      hide Lists;
      EventsKept(s, t);
      HupsKept(s, t);
    }
  }

  /** What every event relies on is as before. */
  lemma EventsKept(s: State, t: State)
    requires Events(s) && t == s.(ops := t.ops, first := t.first, freelist := t.freelist) && |s.ops| <= |t.ops|
    requires forall i :: 0 <= i < |s.ops| && Registered(s.ops[i].phase) ==>
      Registered(t.ops[i].phase) && t.ops[i].gen == s.ops[i].gen
    ensures Events(t)
  {
    forall e | Current(s.ops, e) ensures Current(t.ops, e) {
      assert Registered(s.ops[e.index].phase);
    }
  }

  /** Not registered, and not on the way to it. */
  predicate Off(p: Phase)
  {
    !p.Fresh? && !p.Used? && !p.Added?
  }

  /** An operator goes on to another owner, or its owner does not register again. */
  predicate Later(o: Operator, o': Operator)
  {
    || o.gen < o'.gen
    || (o.gen == o'.gen && (Off(o.phase) ==> Off(o'.phase)))
  }

  /** Operators move along; only the detaching of one is news. */
  lemma HupsKept(s: State, t: State)
    requires Hups(s) && t.hups == s.hups && t.spawned == s.spawned && t.hist.ran == s.hist.ran && t.hist.detached == s.hist.detached
    requires |s.ops| <= |t.ops| && forall i :: 0 <= i < |s.ops| ==> Later(s.ops[i], t.ops[i])
    requires forall i :: 0 <= i < |t.ops| && t.ops[i].phase.Detached? ==> i < |s.ops| && s.ops[i].phase.Detached? && s.ops[i].gen == t.ops[i].gen
    requires InDetach(t.poller) <==> InDetach(s.poller)
    requires InDetach(t.poller) ==> t.poller.e == s.poller.e
    ensures Hups(t)
  {
    hide Captured;
    forall d | d in s.hist.detached ensures Deregistered(t.ops, d) { assert Deregistered(s.ops, d) && Later(s.ops[d.0], t.ops[d.0]); }
  }

  /** What is true of callbacks stays true when more owners are deregistered. */
  lemma CapturedOn(hs: seq<Hup>, n: int, a: set<(nat, nat)>, b: set<(nat, nat)>)
    requires n <= |hs| && (forall k :: 0 <= k < n ==> Captured(hs[k], a)) && a <= b
    ensures forall k :: 0 <= k < n ==> Captured(hs[k], b)
  {
  }

  /** One operator that was registered is detached. */
  lemma HupsDetach(s: State, i: nat)
    requires Hups(s) && i < |s.ops| && s.ops[i].phase.Added?
    ensures Hups(NoteDetach(SetOp(s, i, s.ops[i].(phase := Detached)), i, s.ops[i].gen))
  {
    hide Captured;
    var t := NoteDetach(SetOp(s, i, s.ops[i].(phase := Detached)), i, s.ops[i].gen);
    var n := |s.hups| - if InDetach(s.poller) then 1 else 0;
    CapturedOn(s.spawned, |s.spawned|, s.hist.detached, t.hist.detached);
    CapturedOn(s.hist.ran, |s.hist.ran|, s.hist.detached, t.hist.detached);
    CapturedOn(s.hups, n, s.hist.detached, t.hist.detached);
    forall d | d in t.hist.detached ensures Deregistered(t.ops, d) {
      if d in s.hist.detached { assert Deregistered(s.ops, d); }
    }
  }

  /** An event may have been reported. */
  predicate Registered(p: Phase)
  {
    !p.Free? && !p.Fresh? && !p.Used?
  }

  // ---------------------------------------------------------------- one operator changes

  lemma SetEvents(s: State, i: nat, o: Operator)
    requires Events(s) && i < |s.ops| && o.gen == s.ops[i].gen
    requires Registered(s.ops[i].phase) ==> Registered(o.phase)
    ensures Events(SetOp(s, i, o))
  {
    EventsKept(s, SetOp(s, i, o));
  }

  /** The operator the handler has is not moved back. */
  lemma SetPoller(s: State, i: nat, o: Operator)
    requires Words(s) && i < |s.ops| && Word(o) && o.gen == s.ops[i].gen && (o.holder.ThePoller? <==> s.ops[i].holder.ThePoller?)
    requires Registered(s.ops[i].phase) ==> Registered(o.phase)
    ensures Words(SetOp(s, i, o))
  {
  }

  lemma AllocKeeps(s: State, more: nat)
    requires Inv(s) && Enabled(s, Alloc(more))
    ensures Inv(OwnerStep(s, Alloc(more)))
  {
    hide Filled, Lists, Words, Events, Hups;
    FilledKeeps(s, more);
    TakeKeeps(Filled(s, more));
  }

  function Taken(o: Operator): Operator
  {
    o.(phase := Fresh, gen := o.gen + 1)
  }

  lemma TakeLists(t: State)
    requires Lists(t.ops, t.first, Free) && Lists(t.ops, t.freelist, Listed) && t.first != []
    ensures var i := t.first[0];
            && i < |t.ops| && t.ops[i].phase.Free?
            && Lists(t.ops[i := Taken(t.ops[i])], t.first[1..], Free) && Lists(t.ops[i := Taken(t.ops[i])], t.freelist, Listed)
  {
    var i := t.first[0];
    assert t.ops[i].phase.Free?;
    ListsPop(t.ops, t.first, Free, Taken(t.ops[i]));
    ListsOther(t.ops, t.freelist, Listed, i, Taken(t.ops[i]));
    hide Lists;
  }

  lemma TakeKeeps(t: State)
    requires Inv(t) && t.first != [] && t.first[0] < |t.ops|
    ensures var i := t.first[0];
            Inv(SetOp(t.(first := t.first[1..]), i, t.ops[i].(phase := Fresh, gen := t.ops[i].gen + 1)))
  {
    hide Lists, Words, Events, Hups;
    var i := t.first[0];
    TakeLists(t);
    TakeWords(t, i, Taken(t.ops[i]));
    EventsKept(t, SetOp(t.(first := t.first[1..]), i, Taken(t.ops[i])));
    HupsKept(t, SetOp(t.(first := t.first[1..]), i, Taken(t.ops[i])));
  }

  /** A free operator is nobody's. */
  lemma TakeWords(t: State, i: nat, o: Operator)
    requires Words(t) && t.first != [] && i < |t.ops| && t.ops[i].phase.Free? && o == t.ops[i].(phase := Fresh, gen := t.ops[i].gen + 1)
    ensures Words(SetOp(t.(first := t.first[1..]), i, o))
  {
    assert Word(t.ops[i]);
  }

  lemma EnlistKeeps(s: State, i: nat)
    requires Inv(s) && Enabled(s, Enlist(i))
    ensures Inv(OwnerStep(s, Enlist(i)))
  {
    var o := s.ops[i].(phase := Listed);
    ListsOther(s.ops, s.first, Free, i, o);
    ListsPush(s.ops, s.freelist, Listed, i, o);
    assert Word(s.ops[i]);
    SetPoller(s, i, o);
    SetEvents(s, i, o);
    hide Lists, Words, Events, Hups;
    HupsKept(s, OwnerStep(s, Enlist(i)));
  }

  /** Every other step of an owner or user only moves one operator along. */
  lemma OwnerKeeps(s: State, st: Step)
    requires Inv(s) && Enabled(s, st) && !ByPoller(st)
    ensures Inv(OwnerStep(s, st))
  {
    if st.Alloc? {
      AllocKeeps(s, st.more);
    } else if st.Enlist? {
      EnlistKeeps(s, st.i);
    } else {
      var i := st.i;
      var o := OwnerStep(s, st).ops[i];
      assert Word(s.ops[i]) && OwnerStep(s, st) == SetOp(s, i, o).(hist := OwnerStep(s, st).hist);
      ListsOther(s.ops, s.first, Free, i, o);
      ListsOther(s.ops, s.freelist, Listed, i, o);
      SetPoller(s, i, o);
      SetEvents(s, i, o);
      OwnerHups(s, st);
      hide Lists, Words, Events, Hups;
    }
  }

  lemma OwnerHups(s: State, st: Step)
    requires Hups(s) && Enabled(s, st) && !ByPoller(st) && !st.Alloc? && !st.Enlist?
    ensures Hups(OwnerStep(s, st))
  {
    hide Hups;
    if st.Detach? { HupsDetach(s, st.i); } else { HupsKept(s, OwnerStep(s, st)); }
  }

  // ---------------------------------------------------------------- the poller

  lemma ServeEvents(s: State)
    requires Events(s) && Enabled(s, Serve)
    ensures Events(PollerStep(s, Serve))
  {
    var e, s' := s.events[0], PollerStep(s, Serve);
    forall x | Current(s.ops, x) ensures Current(s'.ops, x) {}
    forall k | 0 <= k < |s.events| - 1 ensures Current(s'.ops, s'.events[k]) { assert s'.events[k] == s.events[k + 1]; }
  }

  lemma ServeWords(s: State)
    requires Words(s) && Events(s) && Enabled(s, Serve)
    ensures Words(PollerStep(s, Serve))
  {
    var e := s.events[0];
    assert Current(s.ops, e) && Word(s.ops[e.index]);
    hide Events;
  }

  lemma ServeKeeps(s: State)
    requires Inv(s) && Enabled(s, Serve)
    ensures Inv(PollerStep(s, Serve))
  {
    var e := s.events[0];
    var o := s.ops[e.index].(state := 2, holder := ThePoller);
    ListsOther(s.ops, s.first, Free, e.index, o);
    ListsOther(s.ops, s.freelist, Listed, e.index, o);
    ServeEvents(s);
    ServeWords(s);
    hide Lists, Events, Words, Hups;
    HupsKept(s, PollerStep(s, Serve));
  }

  /** A call between do() and done() that changes no operator. */
  lemma CallKeeps(s: State, out: Outcome)
    requires Inv(s) && Enabled(s, Handle(out)) && !AtDone(s.poller.at) && !s.poller.at.AppendHup? && !s.poller.at.DetachHup?
    ensures Inv(HandlerStep(s, out))
  {
    hide Lists;
    if !s.poller.at.Over? { DoneEnds(s.poller.at, s.poller.total, s.poller.e.flags, s.ops[s.poller.e.index].cb, out); }
    NotInHup(s.poller.at, s.poller.total, s.poller.e.flags, s.ops[s.poller.e.index].cb, out);
    hide Hups;
    HupsKept(s, HandlerStep(s, out));
  }

  /** Only appendHup leads to its own later parts. */
  lemma NotInHup(at: Place, total: int, f: Flags, cb: Callbacks, out: Outcome)
    requires !AtDone(at) && !at.AppendHup? && !at.DetachHup?
    ensures !Goes(at, total, f, cb, out).DetachHup? && !Goes(at, total, f, cb, out).DoneHup?
  {
  }

  lemma AppendHups(s: State, out: Outcome)
    requires Hups(s) && Words(s) && Enabled(s, Handle(out)) && s.poller.at.AppendHup?
    ensures Hups(HandlerStep(s, out))
  {
    hide Captured;
    assert Word(s.ops[s.poller.e.index]);
  }

  lemma AppendKeeps(s: State, out: Outcome)
    requires Inv(s) && Enabled(s, Handle(out)) && s.poller.at.AppendHup?
    ensures Inv(HandlerStep(s, out))
  {
    AppendHups(s, out);
    hide Lists, Hups;
  }

  lemma DetachWords(s: State, out: Outcome)
    requires Words(s) && Enabled(s, Handle(out)) && s.poller.at.DetachHup?
    ensures Words(HandlerStep(s, out))
  {
    assert Word(s.ops[s.poller.e.index]);
  }

  lemma DetachEvents(s: State, out: Outcome)
    requires Events(s) && Enabled(s, Handle(out)) && s.poller.at.DetachHup?
    ensures Events(HandlerStep(s, out))
  {
    var s' := HandlerStep(s, out);
    forall x | Current(s.ops, x) ensures Current(s'.ops, x) {}
  }

  /** By the handler now, or by the owner before: the operator has been detached, and all that was noted is
      for owners of which that is so. */
  lemma DetachHups(s: State, out: Outcome)
    requires Hups(s) && Words(s) && Enabled(s, Handle(out)) && s.poller.at.DetachHup?
    ensures Hups(HandlerStep(s, out))
  {
    var e, o := s.poller.e, s.ops[s.poller.e.index];
    assert Word(o) && (o.phase.Added? || o.phase.Detached?) && o.gen == e.gen;
    var t := if o.phase.Added? then NoteDetach(SetOp(s, e.index, o.(phase := Detached)), e.index, o.gen) else s;
    if o.phase.Added? { HupsDetach(s, e.index); }
    var s' := HandlerStep(s, out);
    assert s' == t.(poller := s'.poller) && (e.index, e.gen) in t.hist.detached;
    assert Captured(t.hups[|t.hups| - 1], t.hist.detached);
    hide Captured, Words, Deregistered;
  }

  lemma DetachKeeps(s: State, out: Outcome)
    requires Inv(s) && Enabled(s, Handle(out)) && s.poller.at.DetachHup?
    ensures Inv(HandlerStep(s, out))
  {
    var i := s.poller.e.index;
    var o := s.ops[i].(phase := Detached);
    ListsOther(s.ops, s.first, Free, i, o);
    ListsOther(s.ops, s.freelist, Listed, i, o);
    DetachWords(s, out);
    DetachEvents(s, out);
    DetachHups(s, out);
    hide Lists, Events, Words, Hups;
  }

  lemma DoneEvents(s: State, out: Outcome)
    requires Words(s) && Events(s) && Enabled(s, Handle(out)) && AtDone(s.poller.at)
    ensures Events(HandlerStep(s, out)) && Words(HandlerStep(s, out))
  {
    var i, s' := s.poller.e.index, HandlerStep(s, out);
    assert Word(s.ops[i]);
    forall x | Current(s.ops, x) ensures Current(s'.ops, x) {}
  }

  /** Every done() of the handler, on whichever path. */
  lemma DoneKeeps(s: State, out: Outcome)
    requires Inv(s) && Enabled(s, Handle(out)) && AtDone(s.poller.at)
    ensures Inv(HandlerStep(s, out))
  {
    var i := s.poller.e.index;
    var o := s.ops[i].(state := 1, holder := Nobody);
    ListsOther(s.ops, s.first, Free, i, o);
    ListsOther(s.ops, s.freelist, Listed, i, o);
    DoneEvents(s, out);
    hide Lists, Events, Words, Hups;
    HupsKept(s, HandlerStep(s, out));
  }

  lemma HandleKeeps(s: State, out: Outcome)
    requires Inv(s) && Enabled(s, Handle(out))
    ensures Inv(HandlerStep(s, out))
  {
    hide Inv, HandlerStep;
    if AtDone(s.poller.at) { DoneKeeps(s, out); }
    else if s.poller.at.AppendHup? { AppendKeeps(s, out); }
    else if s.poller.at.DetachHup? { DetachKeeps(s, out); }
    else { CallKeeps(s, out); }
  }

  lemma ReversedMembers(a: seq<nat>, b: seq<nat>, x: nat)
    ensures x in Reversed(a) + b <==> x in a || x in b
  {
    var c, n := Reversed(a) + b, |a|;
    if x in a {
      var k :| 0 <= k < n && a[k] == x;
      assert c[n - 1 - k] == x;
    }
    if x in b {
      var k :| 0 <= k < |b| && b[k] == x;
      assert c[n + k] == x;
    }
  }

  lemma ReversedNoDup(a: seq<nat>, b: seq<nat>)
    requires NoDup(a) && NoDup(b) && forall x :: x in a ==> x !in b
    ensures NoDup(Reversed(a) + b)
  {
    var c, n := Reversed(a) + b, |a|;
    forall j, k | 0 <= j < k < |c|
      ensures c[j] != c[k]
    {
      assert c[j] == if j < n then a[n - 1 - j] else b[j - n];
      assert c[k] == if k < n then a[n - 1 - k] else b[k - n];
      if j < n <= k { assert a[n - 1 - j] in a && b[k - n] in b; }
    }
  }

  lemma RecycleLists(s: State)
    requires Inv(s) && Enabled(s, Recycle)
    ensures var s' := PollerStep(s, Recycle); Lists(s'.ops, s'.first, Free) && Lists(s'.ops, s'.freelist, Listed)
  {
    hide Words, Events, Hups, Reversed, NoDup;
    var s' := PollerStep(s, Recycle);
    ReversedNoDup(s.freelist, s.first);
    forall x ensures x in s'.first <==> x in s.freelist || x in s.first { ReversedMembers(s.freelist, s.first, x); }
    forall k | 0 <= k < |s'.first| ensures s'.first[k] < |s'.ops| && s'.ops[s'.first[k]].phase.Free? {
      assert s'.first[k] in s'.first;
    }
    assert NoDup([]) by { NoneTwice(); }
  }

  lemma NoneTwice()
    ensures NoDup([])
  {
  }

  lemma RecycleKeeps(s: State)
    requires Inv(s) && Enabled(s, Recycle)
    ensures Inv(PollerStep(s, Recycle))
  {
    RecycleLists(s);
    hide Lists, Hups;
    HupsKept(s, PollerStep(s, Recycle));
    forall i | 0 <= i < |s.ops| ensures Word(PollerStep(s, Recycle).ops[i]) { assert Word(s.ops[i]); }
  }

  lemma WaitKeeps(s: State, st: Step)
    requires Inv(s) && Enabled(s, st) && st.Wait?
    ensures Inv(PollerStep(s, st))
  {
    hide Lists, Hups;
    HupsKept(s, PollerStep(s, st));
  }

  /** The callbacks of the batch go to a goroutine. */
  lemma SpawnKeeps(s: State)
    requires Inv(s) && Enabled(s, OnHups)
    ensures Inv(PollerStep(s, OnHups))
  {
    hide Lists, Captured, Deregistered;
  }

  lemma RunKeepsHups(s: State, k: nat)
    requires Inv(s) && Enabled(s, RunHup(k))
    ensures Inv(PollerStep(s, RunHup(k)))
  {
    hide Lists, Captured, Deregistered;
  }

  lemma ExecKeeps(s: State, st: Step)
    requires Inv(s) && Enabled(s, st)
    ensures Inv(Exec(s, st))
  {
    hide Inv, Enabled, OwnerStep, HandlerStep;
    if !ByPoller(st) { OwnerKeeps(s, st); }
    else if st.Wait? { WaitKeeps(s, st); }
    else if st.Serve? { ServeKeeps(s); }
    else if st.Handle? { HandleKeeps(s, st.out); }
    else if st.OnHups? { SpawnKeeps(s); }
    else if st.RunHup? { RunKeepsHups(s, st.k); }
    else { RecycleKeeps(s); }
  }

  lemma {:induction false} RunKeeps(run: seq<State>, k: nat)
    requires IsRun(run) && k < |run|
    ensures Inv(run[k])
    decreases k
  {
    hide Steps;
    if k > 0 {
      hide Inv, Init;
      RunKeeps(run, k - 1);
      assert Steps(run[k - 1], run[(k - 1) + 1]);
      StepsKeep(run[k - 1], run[k]);
    }
  }

  lemma StepsKeep(s: State, s': State)
    requires Inv(s) && Steps(s, s')
    ensures Inv(s')
  {
    hide Inv, Enabled, Exec;
    var st :| Enabled(s, st) && s' == Exec(s, st);
    ExecKeeps(s, st);
  }

  lemma ReachableInv(s: State)
    requires Reachable(s)
    ensures Inv(s)
  {
    hide Inv, Init, Steps;
    var run: seq<State> :| IsRun(run) && s == run[|run| - 1];
    RunKeeps(run, |run| - 1);
  }

  // ---------------------------------------------------------------- theorems

  /** Every operator is in exactly one place: on the free chain, on the freelist, or with an owner. */
  lemma Partition(s: State, i: nat)
    requires Reachable(s) && i < |s.ops|
    ensures i in s.first <==> s.ops[i].phase.Free?
    ensures i in s.freelist <==> s.ops[i].phase.Listed?
    ensures NoDup(s.first) && NoDup(s.freelist)
  {
    hide Reachable;
    ReachableInv(s);
    hide Words, Events;
  }

  /** What do() meets for a pending event is the owner the event was reported for, or nobody: a freed
      operator is unused and skipped, and no new owner has it before the batch is over. */
  lemma NoStaleEvent(s: State, k: nat)
    requires Reachable(s) && k < |s.events|
    ensures s.events[k].index < |s.ops|
    ensures var o := s.ops[s.events[k].index];
            && o.gen == s.events[k].gen && s.events[k].index !in s.first
            && (o.state == 1 ==> Live(o.phase))
            && (o.phase.Vacated? || o.phase.Cleared? || o.phase.Listed? ==> o.state == 0)
  {
    hide Reachable;
    ReachableInv(s);
    assert Current(s.ops, s.events[k]) && Word(s.ops[s.events[k].index]);
  }

  /** While the handler is between do and done, the operator is its owner's and cannot be reset, recycled
      or taken by anyone else. */
  lemma HandlerHasItAlone(s: State)
    requires Reachable(s) && Busy(s.poller)
    ensures var i := s.poller.e.index;
            && i < |s.ops| && s.ops[i].state == 2 && s.ops[i].gen == s.poller.e.gen && Live(s.ops[i].phase)
            && (s.ops[i].phase.Added? || s.ops[i].phase.Detached?)
            && !Enabled(s, Vacate(i)) && !Enabled(s, Clear(i)) && !Enabled(s, Enlist(i)) && !Enabled(s, Done(i))
            && forall t :: !Enabled(s, Do(i, t))
  {
    hide Reachable;
    ReachableInv(s);
    assert Word(s.ops[s.poller.e.index]);
    hide Lists, Events;
  }

  /** When an operator is reset nobody is between do and done on it, and nobody gets there before it has
      a new owner. */
  lemma ResetMeetsNobody(s: State, i: nat)
    requires Reachable(s) && i < |s.ops|
    requires s.ops[i].phase.Vacated? || s.ops[i].phase.Cleared? || s.ops[i].phase.Listed? || s.ops[i].phase.Free?
    ensures s.ops[i].state == 0 && s.ops[i].holder.Nobody? && forall t :: !Enabled(s, Do(i, t))
  {
    hide Reachable;
    ReachableInv(s);
    assert Word(s.ops[i]);
    hide Lists, Events;
  }

  /** Every do() that succeeded in the handler is followed by exactly one done(), on the same operator and
      before the next do(), whichever way the handler takes and whatever fails. */
  lemma DonesMatch(s: State)
    requires Reachable(s)
    ensures s.hist.begun == s.hist.ended + if Busy(s.poller) then [s.poller.e.index] else []
  {
    hide Reachable;
    ReachableInv(s);
    hide Lists, Events, Words;
  }

  /** The handler can always go on, and the callbacks it finds are those of the owner the event was for. */
  lemma HandlerGoesOn(s: State, out: Outcome)
    requires Reachable(s) && Busy(s.poller)
    ensures Enabled(s, Handle(out))
    ensures var i, s' := s.poller.e.index, Exec(s, Handle(out));
            i < |s.ops| && i < |s'.ops| && s.ops[i].gen == s'.ops[i].gen == s.poller.e.gen && s'.ops[i].cb == s.ops[i].cb
  {
    hide Reachable;
    ReachableInv(s);
    hide Lists, Events;
  }

  /** OnHup runs in a goroutine, at any time after the handler: what is called is the callback of the owner
      the event was for, and that owner was deregistered before and is not registered again, whoever has
      the operator by then. */
  lemma HupsAreDetached(s: State, h: Hup)
    requires Reachable(s) && (h in s.spawned || h in s.hist.ran)
    ensures h.of == Some(h.e.gen) && (h.e.index, h.e.gen) in s.hist.detached
    ensures h.e.index < |s.ops|
    ensures var o := s.ops[h.e.index]; h.e.gen < o.gen || (h.e.gen == o.gen && !o.phase.Fresh? && !o.phase.Used? && !o.phase.Added?)
  {
    hide Reachable;
    ReachableInv(s);
    hide Lists, Words, Events;
    assert Captured(h, s.hist.detached);
    assert Deregistered(s.ops, (h.e.index, h.e.gen));
  }

  /** Nothing moves from the freelist to the free chain, and no owner changes, while events wait. */
  lemma NoReuseInBatch(s: State, st: Step, k: nat)
    requires Reachable(s) && k < |s.events| && Enabled(s, st)
    ensures var i := s.events[k].index; i < |s.ops| && i < |Exec(s, st).ops| && Exec(s, st).ops[i].gen == s.ops[i].gen && i !in Exec(s, st).first
  {
    hide Reachable;
    ReachableInv(s);
    assert Current(s.ops, s.events[k]);
    hide Lists, Words, Events, Hups, Exec;
    StaysRegistered(s, st, s.events[k].index);
    ExecKeeps(s, st);
    NotFree(Exec(s, st), s.events[k].index);
  }

  lemma NotFree(s: State, i: nat)
    requires Lists(s.ops, s.first, Free) && i < |s.ops| && !s.ops[i].phase.Free?
    ensures i !in s.first
  {
  }

  lemma StaysRegistered(s: State, st: Step, i: nat)
    requires Inv(s) && Enabled(s, st) && !st.Recycle? && i < |s.ops| && Registered(s.ops[i].phase)
    ensures var s' := Exec(s, st); i < |s'.ops| && s'.ops[i].gen == s.ops[i].gen && Registered(s'.ops[i].phase)
  {
    hide Words, Events, Hups;
    if st.Alloc? {
      AllocOther(s, st.more, i);
    } else {
      hide Lists;
    }
  }

  lemma AllocOther(s: State, more: nat, i: nat)
    requires Lists(s.ops, s.first, Free) && Enabled(s, Alloc(more)) && i < |s.ops| && !s.ops[i].phase.Free?
    ensures i < |OwnerStep(s, Alloc(more)).ops| && OwnerStep(s, Alloc(more)).ops[i] == s.ops[i]
  {
    var t := Filled(s, more);
    assert t.first[0] != i by {
      if s.first == [] { assert t.first[0] >= |s.ops|; } else { assert s.ops[s.first[0]].phase.Free?; }
    }
    hide Lists;
  }

  // ---------------------------------------------------------------- OnHup can be late

  lemma Start()
    ensures Reachable(State([], [], [], Waiting, [], [], [], History([], [], {}, [])))
  {
    hide Steps;
    var s := State([], [], [], Waiting, [], [], [], History([], [], {}, []));
    assert IsRun([s]) && s == [s][|[s]| - 1];
  }

  lemma Act(s: State, st: Step)
    requires Reachable(s) && Enabled(s, st)
    ensures Reachable(Exec(s, st))
  {
    hide Init, Enabled, Exec;
    var run: seq<State> :| IsRun(run) && s == run[|run| - 1];
    var longer := run + [Exec(s, st)];
    assert Steps(s, Exec(s, st));
    hide Steps;
    forall k | 0 <= k < |longer| - 1 ensures Steps(longer[k], longer[k + 1]) {
      if k < |run| - 1 { assert Steps(run[k], run[k + 1]); }
    }
    assert IsRun(longer) && Exec(s, st) == longer[|longer| - 1];
  }

  const GONE := Event(0, 1, Flags(false, false, true, false))
  const ANY := Outcome(0, true, false, false, false)

  /** The only operator, with its first owner, and where the poller is with the hang-up of its peer. */
  function Lone(o: Operator, poller: Poller, hups: seq<Hup>, hist: History): State
  {
    State([o], [], [], poller, [], hups, [], hist)
  }

  lemma IsServed() returns (o: Operator)
    ensures o.state == 2 && o.phase == Added && o.gen == 1 && o.onHup == Some(1) && !o.cb.wake && !o.cb.inputs
    ensures Reachable(Lone(o, Handling(GONE, Begin, 0), [], History([0], [], {}, [])))
  {
    hide Reachable;
    Start();
    var s0 := State([], [], [], Waiting, [], [], [], History([], [], {}, []));
    Act(s0, Alloc(1));
    var s1 := Exec(s0, Alloc(1));
    assert s1 == s0.(ops := [Operator(0, Fresh, 1, Nobody, NO_CALLBACKS, None)]);
    Act(s1, Use(0, NO_CALLBACKS));
    var s2 := Exec(s1, Use(0, NO_CALLBACKS));
    Act(s2, Add(0));
    var s3 := Exec(s2, Add(0));
    Act(s3, Wait([GONE]));
    var s4 := Exec(s3, Wait([GONE]));
    Act(s4, Serve);
    o := Operator(2, Added, 1, ThePoller, NO_CALLBACKS, Some(1));
    assert Exec(s4, Serve) == Lone(o, Handling(GONE, Begin, 0), [], History([0], [], {}, []));
  }

  /** Nothing was read: on to appendHup, which notes the callback. */
  lemma IsNoted() returns (o: Operator)
    ensures o.state == 2 && o.phase == Added && o.gen == 1
    ensures Reachable(Lone(o, Handling(GONE, DetachHup, 0), [Hup(GONE, Some(1))], History([0], [], {}, [])))
  {
    hide Reachable;
    o := IsServed();
    var hist := History([0], [], {}, []);
    Act(Lone(o, Handling(GONE, Begin, 0), [], hist), Handle(ANY));
    Act(Lone(o, Handling(GONE, AfterRead, 0), [], hist), Handle(ANY));
    Act(Lone(o, Handling(GONE, HupCheck, 0), [], hist), Handle(ANY));
    var s := Lone(o, Handling(GONE, AppendHup, 0), [], hist);
    Act(s, Handle(ANY));
    assert Exec(s, Handle(ANY)).hups == [Hup(GONE, Some(1))];
  }

  /** It detaches and is done. */
  lemma IsHungUp() returns (o: Operator)
    ensures o.state == 1 && o.phase == Detached && o.gen == 1
    ensures Reachable(Lone(o, Serving, [Hup(GONE, Some(1))], History([0], [0], {(0, 1)}, [])))
  {
    hide Reachable;
    var o0 := IsNoted();
    var hups := [Hup(GONE, Some(1))];
    var o1 := o0.(phase := Detached);
    o := o1.(state := 1, holder := Nobody);
    var s0 := Lone(o0, Handling(GONE, DetachHup, 0), hups, History([0], [], {}, []));
    Act(s0, Handle(ANY));
    assert Exec(s0, Handle(ANY)).ops == [o1] && Exec(s0, Handle(ANY)).hist.detached == {(0, 1)};
    var s1 := Lone(o1, Handling(GONE, DoneHup, 0), hups, History([0], [], {(0, 1)}, []));
    assert Exec(s0, Handle(ANY)) == s1;
    Act(s1, Handle(ANY));
    assert Exec(s1, Handle(ANY)).ops == [o] && Exec(s1, Handle(ANY)).hist.ended == [0];
    var s2 := Lone(o, Handling(GONE, Over(false), 0), hups, History([0], [0], {(0, 1)}, []));
    assert Exec(s1, Handle(ANY)) == s2;
    Act(s2, Handle(ANY));
  }

  /** The owner frees the operator before the handler returns. */
  lemma IsFreed() returns (s: State)
    ensures Reachable(s) && |s.ops| == 1 && s.ops[0].phase.Listed? && s.ops[0].gen == 1 && s.freelist == [0] && s.first == []
    ensures s.poller == Serving && s.events == [] && s.hups == [Hup(GONE, Some(1))] && s.spawned == []
  {
    hide Reachable, HandlerStep;
    var o := IsHungUp();
    var s0 := Lone(o, Serving, [Hup(GONE, Some(1))], History([0], [0], {(0, 1)}, []));
    Act(s0, Vacate(0));
    var s1 := Exec(s0, Vacate(0));
    assert s1.ops == [o.(state := 0, phase := Vacated)];
    Act(s1, Clear(0));
    var s2 := Exec(s1, Clear(0));
    assert s2.ops[0].phase.Cleared?;
    Act(s2, Enlist(0));
    s := Exec(s2, Enlist(0));
  }

  /** The cache recycles it, and somebody else gets it before OnHup has run. */
  lemma OnHupCanBeLate() returns (s: State, h: Hup)
    ensures Reachable(s) && h in s.spawned && h.e.index < |s.ops| && h.e.gen < s.ops[h.e.index].gen && s.ops[h.e.index].phase.Fresh?
  {
    hide Reachable, HandlerStep;
    h := Hup(GONE, Some(1));
    var s3 := IsFreed();
    Act(s3, OnHups);
    var s4 := Exec(s3, OnHups);
    assert s4.spawned == [h];
    Act(s4, Recycle);
    var s5 := Exec(s4, Recycle);
    assert s5.first == [0] && s5.ops[0].phase.Free? && s5.ops[0].gen == 1;
    Act(s5, Alloc(1));
    s := Exec(s5, Alloc(1));
  }
}
