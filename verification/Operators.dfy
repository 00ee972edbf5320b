/** Operators of a poller: allocated and freed by connections, fired by event batches.  A freed operator
    waits in the freelist until the batch is over, so that an event that was fetched for its old
    owner cannot reach a new one.  Every atomic operation, and every section under one of the
    cache's two locks, is a step. */
module Operators {
  import opened Prelude
  import opened Handler

  /** Where an operator is in its life.  The owner registers it, detaches it, waits in unused() for the
      handler to leave, resets the fields and puts it on the freelist. */
  datatype Phase = Free | Fresh | Used | Added | Detached | Vacated | Cleared | Listed

  datatype Holder = Nobody | ThePoller | AUser(t: nat)

  /** `state` is the word that do, done, inuse and unused work on: 0 unused, 1 in use, 2 between do
      and done.  `gen` counts the owners, `holder` records who is between do and done, `onHup` which
      owner's OnHup is installed. */
  datatype Operator = Operator(state: nat, phase: Phase, gen: nat, holder: Holder, cb: Callbacks, onHup: Option<nat>)

  /** An event names an operator; `gen` records whose registration it was reported for. */
  datatype Event = Event(index: nat, gen: nat, flags: Flags)

  /** A callback that appendHup took from the operator of an event; `of` is the owner that installed it. */
  datatype Hup = Hup(e: Event, of: Option<nat>)

  datatype Poller =
    | Waiting
    | Serving                                      // in the loop over the events
    | Handling(e: Event, at: Place, total: int)    // do() succeeded; up to `continue` or `return`
    | Freeing                                      // the handler has returned
    | Exited                                       // told to stop

  /** What has happened: `begun` and `ended` are the operators of the handler's successful do() and of its
      done(), in order, `detached` the owners whose operator was deregistered, `ran` the OnHup calls. */
  datatype History = History(begun: seq<nat>, ended: seq<nat>, detached: set<(nat, nat)>, ran: seq<Hup>)

  /** `first` is the free chain; `hups` are the callbacks noted in this batch, `spawned` those that were handed
      to goroutines and have not been called yet. */
  datatype State = State(ops: seq<Operator>, first: seq<nat>, freelist: seq<nat>, poller: Poller, events: seq<Event>,
                         hups: seq<Hup>, spawned: seq<Hup>, hist: History)

  datatype Step =
    | Alloc(more: nat)
    | Use(i: nat, cb: Callbacks)
    | Add(i: nat)
    | Detach(i: nat)
    | Vacate(i: nat)
    | Clear(i: nat)
    | Enlist(i: nat)
    | Do(i: nat, t: nat)
    | Done(i: nat)
    | Wait(batch: seq<Event>)
    | Serve
    | Handle(out: Outcome)
    | OnHups
    | Recycle
    | RunHup(k: nat)

  predicate Live(p: Phase) { p.Used? || p.Added? || p.Detached? }

  /** A freshly made run of operators. */
  function Made(n: nat): seq<Operator>
  {
    seq(n, _ => Operator(0, Free, 0, Nobody, NO_CALLBACKS, None))
  }

  /** Indices from..from+n-1, the last one first: each was put before the others. */
  function Downward(from: nat, n: nat): seq<nat>
  {
    seq(n, k requires 0 <= k < n => from + (n - 1 - k))
  }

  function Reversed(s: seq<nat>): seq<nat>
  {
    seq(|s|, k requires 0 <= k < |s| => s[|s| - 1 - k])
  }

  /** alloc: fill the chain when it is empty, then take its first operator. */
  function Filled(s: State, more: nat): State
  {
    if s.first != [] then s
    else s.(ops := s.ops + Made(more), first := Downward(|s.ops|, more))
  }

  /** The owner `gen` of operator `i` is deregistered. */
  function NoteDetach(s: State, i: nat, gen: nat): State
  {
    s.(hist := s.hist.(detached := s.hist.detached + {(i, gen)}))
  }

  function SetOp(s: State, i: nat, o: Operator): State
    requires i < |s.ops|
  {
    s.(ops := s.ops[i := o])
  }

  predicate Has(s: State, i: nat, p: Phase)
  {
    i < |s.ops| && s.ops[i].phase == p
  }

  predicate Enabled(s: State, st: Step)
  {
    match st
    case Alloc(more) => 0 < more && var t := Filled(s, more); t.first != [] && t.first[0] < |t.ops|
    case Use(i, _) => Has(s, i, Fresh) && s.ops[i].state == 0
    case Add(i) => Has(s, i, Used)
    case Detach(i) => Has(s, i, Added)
    case Vacate(i) => i < |s.ops| && (Has(s, i, Fresh) || Has(s, i, Used) || Has(s, i, Detached)) && s.ops[i].state <= 1
    case Clear(i) => Has(s, i, Vacated)
    case Enlist(i) => Has(s, i, Cleared)
    case Do(i, _) => i < |s.ops| && Live(s.ops[i].phase) && s.ops[i].state == 1
    case Done(i) => i < |s.ops| && s.ops[i].holder.AUser?
    case Wait(batch) => s.poller.Waiting? && forall k :: 0 <= k < |batch| ==> Has(s, batch[k].index, Added) && batch[k].gen == s.ops[batch[k].index].gen
    case Serve => s.poller.Serving? && s.events != [] && s.events[0].index < |s.ops|
    case Handle(_) => s.poller.Handling? && s.poller.e.index < |s.ops|
    case OnHups => s.poller.Serving? && s.events == []
    case Recycle => s.poller.Freeing?
    case RunHup(k) => k < |s.spawned|
  }

  function OwnerStep(s: State, st: Step): State
    requires Enabled(s, st)
  {
    match st
    case Alloc(more) =>
      var t := Filled(s, more);
      var i := t.first[0];
      SetOp(t.(first := t.first[1..]), i, t.ops[i].(phase := Fresh, gen := t.ops[i].gen + 1))
    case Use(i, cb) => SetOp(s, i, s.ops[i].(state := 1, phase := Used, cb := cb, onHup := Some(s.ops[i].gen)))
    case Add(i) => SetOp(s, i, s.ops[i].(phase := Added))
    case Detach(i) => NoteDetach(SetOp(s, i, s.ops[i].(phase := Detached)), i, s.ops[i].gen)
    case Vacate(i) => SetOp(s, i, s.ops[i].(state := 0, phase := Vacated))
    case Clear(i) => SetOp(s, i, s.ops[i].(phase := Cleared, cb := NO_CALLBACKS, onHup := None))
    case Enlist(i) => SetOp(s, i, s.ops[i].(phase := Listed)).(freelist := s.freelist + [i])
    case Do(i, t) => SetOp(s, i, s.ops[i].(state := 2, holder := AUser(t)))
    case Done(i) => SetOp(s, i, s.ops[i].(state := 1, holder := Nobody))
    case _ => s
  }

  /** Between do() and done(). */
  predicate Busy(p: Poller)
  {
    p.Handling? && !p.at.Over?
  }

  /** One call of the handler.  done() stores 1, whatever is there.  appendHup first notes OnHup, then
      detaches; only the first of several detaches, by the handler or the owner, does anything. */
  function HandlerStep(s: State, out: Outcome): State
    requires s.poller.Handling? && s.poller.e.index < |s.ops|
  {
    var e, at, total := s.poller.e, s.poller.at, s.poller.total;
    var o := s.ops[e.index];
    var t := s.(poller := Handling(e, Goes(at, total, e.flags, o.cb, out), total + Reads(at, out)));
    if at.Over? then (if at.stop then s.(poller := Exited, events := []) else s.(poller := Serving))
    else if AtDone(at) then SetOp(t, e.index, o.(state := 1, holder := Nobody)).(hist := s.hist.(ended := s.hist.ended + [e.index]))
    else if at.AppendHup? then t.(hups := s.hups + [Hup(e, o.onHup)])
    else if at.DetachHup? && o.phase.Added? then NoteDetach(SetOp(t, e.index, o.(phase := Detached)), e.index, o.gen)
    else t
  }

  function PollerStep(s: State, st: Step): State
    requires Enabled(s, st)
  {
    match st
    case Wait(batch) => s.(poller := Serving, events := batch)
    case Serve =>
      var e := s.events[0];
      var t := s.(events := s.events[1..]);
      if s.ops[e.index].state == 1 then
        SetOp(t, e.index, s.ops[e.index].(state := 2, holder := ThePoller)).(poller := Handling(e, Begin, 0), hist := s.hist.(begun := s.hist.begun + [e.index]))
      else t
    case Handle(out) => HandlerStep(s, out)
    case OnHups => s.(poller := Freeing, spawned := s.spawned + s.hups, hups := [])
    case RunHup(k) => s.(spawned := s.spawned[..k] + s.spawned[k + 1..], hist := s.hist.(ran := s.hist.ran + [s.spawned[k]]))
    case Recycle =>
      s.(ops := seq(|s.ops|, i requires 0 <= i < |s.ops| => if s.ops[i].phase.Listed? then s.ops[i].(phase := Free) else s.ops[i]),
         first := Reversed(s.freelist) + s.first, freelist := [], poller := Waiting)
    case _ => s
  }

  predicate ByPoller(st: Step) { st.Wait? || st.Serve? || st.Handle? || st.OnHups? || st.Recycle? || st.RunHup? }

  function Exec(s: State, st: Step): State
    requires Enabled(s, st)
  {
    if ByPoller(st) then PollerStep(s, st) else OwnerStep(s, st)
  }

  ghost predicate Init(s: State)
  {
    s == State([], [], [], Waiting, [], [], [], History([], [], {}, []))
  }

  ghost predicate Steps(s: State, s': State)
  {
    exists st :: Enabled(s, st) && s' == Exec(s, st)
  }

  ghost predicate IsRun(run: seq<State>)
  {
    && 0 < |run| && Init(run[0])
    && forall k :: 0 <= k < |run| - 1 ==> Steps(run[k], run[k + 1])
  }

  ghost predicate Reachable(s: State)
  {
    exists run: seq<State> :: IsRun(run) && s == run[|run| - 1]
  }

  // ---------------------------------------------------------------- what every step keeps

  ghost predicate NoDup(s: seq<nat>)
  {
    forall j, k :: 0 <= j < k < |s| ==> s[j] != s[k]
  }

  /** A list holds exactly the operators of one phase, each once. */
  ghost predicate Lists(ops: seq<Operator>, s: seq<nat>, p: Phase)
  {
    && NoDup(s)
    && (forall k :: 0 <= k < |s| ==> s[k] < |ops| && ops[s[k]].phase == p)
    && forall i :: 0 <= i < |ops| && ops[i].phase == p ==> i in s
  }

  predicate Word(o: Operator)
  {
    && o.state <= 2 && (o.state == 2 <==> !o.holder.Nobody?)
    && (Live(o.phase) <==> 0 < o.state) && (Live(o.phase) ==> o.onHup == Some(o.gen))
  }

  ghost predicate Words(s: State)
  {
    && (forall i :: 0 <= i < |s.ops| ==> Word(s.ops[i]))
    && (forall i :: 0 <= i < |s.ops| && s.ops[i].holder.ThePoller? ==> Busy(s.poller) && s.poller.e.index == i)
    && (s.poller.Handling? ==> Current(s.ops, s.poller.e))
    && (Busy(s.poller) ==> s.ops[s.poller.e.index].holder.ThePoller?)
  }

  /** An event that waits to be served is for the operator's present owner, or its last. */
  predicate Current(ops: seq<Operator>, e: Event)
  {
    && e.index < |ops| && ops[e.index].gen == e.gen
    && !ops[e.index].phase.Free? && !ops[e.index].phase.Fresh? && !ops[e.index].phase.Used?
  }

  ghost predicate Events(s: State)
  {
    && (s.poller.Waiting? || s.poller.Freeing? || s.poller.Exited? ==> s.events == [])
    && forall k :: 0 <= k < |s.events| ==> Current(s.ops, s.events[k])
  }

  /** The callback is that of the owner the event was for, and that owner has been deregistered. */
  predicate Captured(h: Hup, detached: set<(nat, nat)>)
  {
    h.of == Some(h.e.gen) && (h.e.index, h.e.gen) in detached
  }

  /** Who was deregistered never is registered again. */
  predicate Deregistered(ops: seq<Operator>, d: (nat, nat))
  {
    d.0 < |ops| && (d.1 < ops[d.0].gen || (d.1 == ops[d.0].gen && !ops[d.0].phase.Fresh? && !ops[d.0].phase.Used? && !ops[d.0].phase.Added?))
  }

  predicate InDetach(p: Poller)
  {
    p.Handling? && p.at.DetachHup?
  }

  ghost predicate Hups(s: State)
  {
    && (forall d :: d in s.hist.detached ==> Deregistered(s.ops, d))
    && (forall i :: 0 <= i < |s.ops| && s.ops[i].phase.Detached? ==> (i, s.ops[i].gen) in s.hist.detached)
    && (forall k :: 0 <= k < |s.spawned| ==> Captured(s.spawned[k], s.hist.detached))
    && (forall k :: 0 <= k < |s.hist.ran| ==> Captured(s.hist.ran[k], s.hist.detached))
    && (forall k :: 0 <= k < |s.hups| - (if InDetach(s.poller) then 1 else 0) ==> Captured(s.hups[k], s.hist.detached))
    && (InDetach(s.poller) ==> s.hups != [] && s.hups[|s.hups| - 1] == Hup(s.poller.e, Some(s.poller.e.gen)))
  }

  /** Every do() but the one under way has had its done(). */
  predicate Matched(s: State)
  {
    s.hist.begun == s.hist.ended + if Busy(s.poller) then [s.poller.e.index] else []
  }

  ghost predicate Inv(s: State)
  {
    Lists(s.ops, s.first, Free) && Lists(s.ops, s.freelist, Listed) && Words(s) && Events(s) && Hups(s) && Matched(s)
  }
}
