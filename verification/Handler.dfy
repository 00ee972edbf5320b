/** The poller's handler between do() and done() of one event: which call comes next, given the event's
    flags, the callbacks of the operator and what each system call gives.  Every call can fail. */
module Handler {

  /** EPOLLIN, EPOLLOUT, EPOLLHUP or EPOLLRDHUP, EPOLLERR. */
  datatype Flags = Flags(read: bool, write: bool, hup: bool, error: bool)

  /** What the owner installed.  `wake`: it is the poller's own eventfd. */
  datatype Callbacks = Callbacks(wake: bool, onRead: bool, onWrite: bool, inputs: bool, outputs: bool)

  const NO_CALLBACKS := Callbacks(false, false, false, false, false)

  /** What a call gives: bytes read, no memory or data to work on, an error (for MSG_ERRQUEUE: one that is
      not EAGAIN; for a read `eof` tells the end of the stream from an errno), the message to stop.  A
      read that has to be tried again gives no byte and no error. */
  datatype Outcome = Outcome(bytes: nat, none: bool, err: bool, eof: bool, stop: bool)

  /** Where the handler is.  The three parts of appendHup, and each done(), are places of their own. */
  datatype Place =
    | Begin                   // do() succeeded
    | WakeDone(stop: bool)    // the trigger was read
    | Reading                 // Inputs gave memory: ioread and InputAck
    | AfterRead
    | ReadAll                 // readall: Inputs
    | TryRead                 // ... ioread and InputAck, again if there was no byte
    | HupCheck
    | AfterHup
    | Sending                 // Outputs gave data: iosend and OutputAck
    | AppendHup | DetachHup | DoneHup
    | Finishing               // the done() at the end of the loop body
    | Over(stop: bool)        // on to the next event, or out of the loop

  /** The places where the handler calls done(). */
  predicate AtDone(at: Place)
  {
    at.WakeDone? || at.DoneHup? || at.Finishing?
  }

  /** The next place; `total` is totalRead so far. */
  function Goes(at: Place, total: int, f: Flags, cb: Callbacks, out: Outcome): Place
  {
    match at
    case Begin =>
      if cb.wake then WakeDone(out.stop)
      else if f.read && !cb.onRead && cb.inputs && !out.none then Reading
      else AfterRead
    case Reading => if out.err then AppendHup else AfterRead
    case AfterRead => if !f.hup then AfterHup else if f.read && cb.inputs then ReadAll else HupCheck
    case ReadAll => if out.none then HupCheck else TryRead
    case TryRead => if out.err then HupCheck else if out.bytes == 0 then TryRead else ReadAll
    case HupCheck => if total == 0 then AppendHup else AfterHup
    case AfterHup =>
      if f.error then (if out.err then AppendHup else Finishing)
      else if f.write && !cb.onWrite && cb.outputs && !out.none then Sending
      else Finishing
    case Sending => if out.err then AppendHup else Finishing
    case AppendHup => DetachHup
    case DetachHup => DoneHup
    case WakeDone(stop) => Over(stop)
    case DoneHup => Over(false)
    case Finishing => Over(false)
    case Over(_) => at
  }

  predicate IsRead(at: Place)
  {
    at.Reading? || at.TryRead?
  }

  /** What a read adds to totalRead: the result of the system call, which for an errno is -1. */
  function Reads(at: Place, out: Outcome): int
  {
    if !IsRead(at) then 0 else if !out.err then out.bytes else if out.eof then 0 else -1
  }

  // ---------------------------------------------------------------- paths through the handler

  /** A way through the handler, places with totalRead, and what every call gave. */
  ghost predicate IsPath(path: seq<(Place, int)>, f: Flags, cb: Callbacks, outs: seq<Outcome>)
  {
    && |path| == |outs| + 1 && path[0] == (Begin, 0)
    && forall k :: 0 <= k < |outs| ==> Follows(path[k], path[k + 1], f, cb, outs[k])
  }

  predicate Follows(a: (Place, int), b: (Place, int), f: Flags, cb: Callbacks, out: Outcome)
  {
    !a.0.Over? && b == (Goes(a.0, a.1, f, cb, out), a.1 + Reads(a.0, out))
  }

  lemma Shorter(path: seq<(Place, int)>, f: Flags, cb: Callbacks, outs: seq<Outcome>)
    requires IsPath(path, f, cb, outs) && outs != []
    ensures IsPath(path[..|outs|], f, cb, outs[..|outs| - 1])
    ensures Follows(path[|outs| - 1], path[|outs|], f, cb, outs[|outs| - 1])
  {
    hide Follows;
    var n := |outs| - 1;
    forall k | 0 <= k < n ensures Follows(path[..n + 1][k], path[..n + 1][k + 1], f, cb, outs[..n][k]) {
      assert Follows(path[k], path[k + 1], f, cb, outs[k]);
    }
    assert Follows(path[n], path[n + 1], f, cb, outs[n]);
  }

  /** The first `k` steps of a way. */
  lemma {:induction false} UpTo(path: seq<(Place, int)>, f: Flags, cb: Callbacks, outs: seq<Outcome>, k: nat)
    requires IsPath(path, f, cb, outs) && k <= |outs|
    ensures IsPath(path[..k + 1], f, cb, outs[..k])
    decreases |outs| - k
  {
    hide IsPath;
    if k == |outs| {
      assert path[..k + 1] == path && outs[..k] == outs by { WholeOf(path, f, cb, outs); }
    } else {
      UpTo(path, f, cb, outs, k + 1);
      assert |path[..k + 2]| == k + 2 by { WholeOf(path, f, cb, outs); }
      Shorter(path[..k + 2], f, cb, outs[..k + 1]);
      assert path[..k + 2][..k + 1] == path[..k + 1] && outs[..k + 1][..k] == outs[..k];
    }
  }

  lemma WholeOf(path: seq<(Place, int)>, f: Flags, cb: Callbacks, outs: seq<Outcome>)
    requires IsPath(path, f, cb, outs)
    ensures |path| == |outs| + 1 && path[..|outs| + 1] == path && outs[..|outs|] == outs
  {
  }

  // ---------------------------------------------------------------- what was read

  /** Bytes that reads have delivered. */
  function Served(path: seq<(Place, int)>, outs: seq<Outcome>): nat
    requires |path| == |outs| + 1
  {
    if outs == [] then 0
    else
      var n := |outs| - 1;
      Served(path[..n + 1], outs[..n]) + if IsRead(path[n].0) && !outs[n].err then outs[n].bytes else 0
  }

  /** Some read failed, and not for the end of the stream. */
  ghost predicate Broke(path: seq<(Place, int)>, outs: seq<Outcome>)
    requires |path| == |outs| + 1
  {
    exists k :: 0 <= k < |outs| && IsRead(path[k].0) && outs[k].err && !outs[k].eof
  }

  predicate InHup(at: Place)
  {
    at.AppendHup? || at.DetachHup? || at.DoneHup?
  }

  /** The handler can still come to a read. */
  predicate BeforeHup(at: Place)
  {
    at.Begin? || at.Reading? || at.AfterRead? || at.ReadAll? || at.TryRead?
  }

  lemma BrokeStep(path: seq<(Place, int)>, outs: seq<Outcome>)
    requires |path| == |outs| + 1 && outs != []
    ensures var n := |outs| - 1;
            Broke(path, outs) <==> Broke(path[..n + 1], outs[..n]) || (IsRead(path[n].0) && outs[n].err && !outs[n].eof)
  {
    hide IsRead;
    var n := |outs| - 1;
    var before, outs' := path[..n + 1], outs[..n];
    if k :| 0 <= k < n && IsRead(before[k].0) && outs'[k].err && !outs'[k].eof {
      assert IsRead(path[k].0) && outs[k].err && !outs[k].eof;
    }
    if k :| 0 <= k < |outs| && IsRead(path[k].0) && outs[k].err && !outs[k].eof {
      if k < n { assert IsRead(before[k].0) && outs'[k].err && !outs'[k].eof; }
    }
  }

  /** totalRead is one short of what was read exactly if a read failed with an errno; no read follows one
      that failed. */
  lemma {:induction false} TotalIs(path: seq<(Place, int)>, f: Flags, cb: Callbacks, outs: seq<Outcome>)
    requires IsPath(path, f, cb, outs)
    ensures path[|outs|].1 == Served(path, outs) - if Broke(path, outs) then 1 else 0
    ensures BeforeHup(path[|outs|].0) ==> !Broke(path, outs)
    decreases |outs|
  {
    if |outs| > 0 {
      var n := |outs| - 1;
      Shorter(path, f, cb, outs);
      TotalIs(path[..n + 1], f, cb, outs[..n]);
      BrokeStep(path, outs);
      ReadStep(path[n].0, path[n].1, f, cb, outs[n]);
      hide Broke, Goes, IsRead, BeforeHup;
    }
  }

  lemma ReadStep(at: Place, total: int, f: Flags, cb: Callbacks, out: Outcome)
    requires !at.Over?
    ensures IsRead(at) ==> BeforeHup(at)
    ensures BeforeHup(Goes(at, total, f, cb, out)) ==> BeforeHup(at) && !(IsRead(at) && out.err)
    ensures Reads(at, out) == (if IsRead(at) && !out.err then out.bytes else 0) - (if IsRead(at) && out.err && !out.eof then 1 else 0)
  {
  }

  // ---------------------------------------------------------------- a hang-up of the peer

  /** What the handler promises: of a connection whose peer hung up, data that came is served first, and the
      operator is hung up exactly if there was none. */
  predicate ServedFirst(path: seq<(Place, int)>, outs: seq<Outcome>, h: nat)
    requires |path| == |outs| + 1 && h < |outs|
  {
    path[h + 1].0.AppendHup? <==> Served(path[..h + 1], outs[..h]) == 0
  }

  /** Over all ways: the promise is kept exactly unless a read of readall fails with an errno when at most
      one byte has been read. */
  lemma ServedFirstExactlyIf(path: seq<(Place, int)>, f: Flags, cb: Callbacks, outs: seq<Outcome>, h: nat)
    requires IsPath(path, f, cb, outs) && h < |outs| && path[h].0.HupCheck?
    ensures ServedFirst(path, outs, h) <==> !(Broke(path[..h + 1], outs[..h]) && Served(path[..h + 1], outs[..h]) <= 1)
  {
    hide Broke, Served;
    UpTo(path, f, cb, outs, h);
    TotalIs(path[..h + 1], f, cb, outs[..h]);
    assert Follows(path[h], path[h + 1], f, cb, outs[h]);
  }

  const PEER_GONE := Flags(true, false, true, false)
  const CONNECTION := Callbacks(false, false, false, true, true)
  const NOTHING := Outcome(0, false, false, false, false)
  const RESET := Outcome(0, false, true, false, false)

  /** The first read gives `n` bytes, and the next one an errno. */
  function ResetAfter(n: nat): seq<Outcome>
  {
    [NOTHING, Outcome(n, false, false, false, false), NOTHING, NOTHING, RESET, NOTHING]
  }

  function WayOfReset(n: nat): seq<(Place, int)>
  {
    [(Begin, 0), (Reading, 0), (AfterRead, n), (ReadAll, n), (TryRead, n), (HupCheck, n - 1),
     (if n == 1 then AppendHup else AfterHup, n - 1)]
  }

  lemma WayOfResetIsOne(n: nat)
    ensures IsPath(WayOfReset(n), PEER_GONE, CONNECTION, ResetAfter(n))
  {
    var path, outs := WayOfReset(n), ResetAfter(n);
    forall k | 0 <= k < |outs| ensures Follows(path[k], path[k + 1], PEER_GONE, CONNECTION, outs[k]) {
      if k == 0 {} else if k == 1 {} else if k == 2 {} else if k == 3 {} else if k == 4 {} else {}
    }
  }

  lemma {:induction false} ServedByReset(n: nat)
    ensures Served(WayOfReset(n)[..6], ResetAfter(n)[..5]) == n
  {
    var path, outs := WayOfReset(n), ResetAfter(n);
    assert Served(path[..1], outs[..0]) == 0;
    assert path[..2][..1] == path[..1] && outs[..1][..0] == outs[..0] && Served(path[..2], outs[..1]) == 0;
    assert path[..3][..2] == path[..2] && outs[..2][..1] == outs[..1] && Served(path[..3], outs[..2]) == n;
    assert path[..4][..3] == path[..3] && outs[..3][..2] == outs[..2] && Served(path[..4], outs[..3]) == n;
    assert path[..5][..4] == path[..4] && outs[..4][..3] == outs[..3] && Served(path[..5], outs[..4]) == n;
    assert path[..6][..5] == path[..5] && outs[..5][..4] == outs[..4];
  }

  /** A peer that sends one byte and resets: the byte was read, and the operator is hung up. */
  lemma OneByteIsDropped()
    ensures IsPath(WayOfReset(1), PEER_GONE, CONNECTION, ResetAfter(1)) && !ServedFirst(WayOfReset(1), ResetAfter(1), 5)
    ensures Served(WayOfReset(1)[..6], ResetAfter(1)[..5]) == 1 && WayOfReset(1)[6].0 == AppendHup
  {
    hide Served;
    WayOfResetIsOne(1);
    ServedByReset(1);
  }

  /** A peer that sends nothing and resets between the two reads: nothing was read, and it is not. */
  lemma DeadPeerIsKept()
    ensures IsPath(WayOfReset(0), PEER_GONE, CONNECTION, ResetAfter(0)) && !ServedFirst(WayOfReset(0), ResetAfter(0), 5)
    ensures Served(WayOfReset(0)[..6], ResetAfter(0)[..5]) == 0 && !HungUp(WayOfReset(0))
  {
    hide Served;
    WayOfResetIsOne(0);
    ServedByReset(0);
  }

  // ---------------------------------------------------------------- why an operator is hung up

  /** The way leads through appendHup. */
  ghost predicate HungUp(path: seq<(Place, int)>)
  {
    exists k :: 0 <= k < |path| && InHup(path[k].0)
  }

  /** The first read, a send or the error queue failed in step `k`; or the peer is gone, and the reads have
      given nothing, or one byte and then an errno. */
  ghost predicate Reason(path: seq<(Place, int)>, f: Flags, outs: seq<Outcome>, k: nat)
    requires |path| == |outs| + 1 && k < |outs|
  {
    || (outs[k].err && (path[k].0.Reading? || path[k].0.Sending? || (path[k].0.AfterHup? && f.error)))
    || (path[k].0.HupCheck? && Served(path[..k + 1], outs[..k]) == if Broke(path[..k + 1], outs[..k]) then 1 else 0)
  }

  /** Every way leads through appendHup exactly if there is such a reason on it. */
  lemma HungUpExactlyIf(path: seq<(Place, int)>, f: Flags, cb: Callbacks, outs: seq<Outcome>)
    requires IsPath(path, f, cb, outs)
    ensures HungUp(path) <==> exists k :: 0 <= k < |outs| && Reason(path, f, outs, k)
  {
    hide Reason, InHup, Goes;
    if k :| 0 <= k < |outs| && Reason(path, f, outs, k) {
      ReasonHangsUp(path, f, cb, outs, k);
      assert InHup(path[k + 1].0);
    }
    if HungUp(path) {
      var k :| 0 <= k < |path| && InHup(path[k].0);
      var j := CameFromReason(path, f, cb, outs, k);
    }
  }

  lemma ReasonHangsUp(path: seq<(Place, int)>, f: Flags, cb: Callbacks, outs: seq<Outcome>, k: nat)
    requires IsPath(path, f, cb, outs) && k < |outs|
    ensures Reason(path, f, outs, k) ==> InHup(path[k + 1].0)
    ensures InHup(path[k + 1].0) ==> InHup(path[k].0) || Reason(path, f, outs, k)
  {
    hide Broke, Served;
    UpTo(path, f, cb, outs, k);
    TotalIs(path[..k + 1], f, cb, outs[..k]);
    assert Follows(path[k], path[k + 1], f, cb, outs[k]);
  }

  lemma {:induction false} CameFromReason(path: seq<(Place, int)>, f: Flags, cb: Callbacks, outs: seq<Outcome>, k: nat) returns (j: nat)
    requires IsPath(path, f, cb, outs) && k < |path| && InHup(path[k].0)
    ensures j < |outs| && Reason(path, f, outs, j)
    decreases k
  {
    hide Reason, Goes;
    ReasonHangsUp(path, f, cb, outs, k - 1);
    if Reason(path, f, outs, k - 1) { j := k - 1; } else { j := CameFromReason(path, f, cb, outs, k - 1); }
  }

  // ---------------------------------------------------------------- one done() on every path

  /** How often done() was called on the way to the last place. */
  function Dones(path: seq<(Place, int)>): nat
  {
    if |path| <= 1 then 0 else Dones(path[..|path| - 1]) + if AtDone(path[|path| - 2].0) then 1 else 0
  }

  /** done() has been called once when the handler is over with the event, and not before. */
  lemma {:induction false} OneDone(path: seq<(Place, int)>, f: Flags, cb: Callbacks, outs: seq<Outcome>)
    requires IsPath(path, f, cb, outs)
    ensures Dones(path) == if path[|outs|].0.Over? then 1 else 0
    decreases |outs|
  {
    if |outs| > 0 {
      var n := |outs| - 1;
      Shorter(path, f, cb, outs);
      OneDone(path[..n + 1], f, cb, outs[..n]);
      DoneEnds(path[n].0, path[n].1, f, cb, outs[n]);
      hide Goes, Reads, AtDone;
    }
  }

  lemma DoneEnds(at: Place, total: int, f: Flags, cb: Callbacks, out: Outcome)
    requires !at.Over?
    ensures Goes(at, total, f, cb, out).Over? <==> AtDone(at)
  {
  }

  // ---------------------------------------------------------------- paths end

  function Rank(at: Place): nat
  {
    match at
    case Begin => 11 case Reading => 10 case AfterRead => 9 case ReadAll => 8 case TryRead => 7 case HupCheck => 6 case AfterHup => 5
    case Sending => 4 case AppendHup => 3 case DetachHup => 2 case Over(_) => 0 case _ => 1
  }

  /** Reads of readall that did not fail. */
  function Rounds(path: seq<(Place, int)>, outs: seq<Outcome>): nat
    requires |path| == |outs| + 1
  {
    if outs == [] then 0
    else
      var n := |outs| - 1;
      Rounds(path[..|outs|], outs[..n]) + if path[n].0.TryRead? && !outs[n].err then 1 else 0
  }

  /** Each of those is worth two steps; besides no event takes more than eleven. */
  lemma {:induction false} PathsEnd(path: seq<(Place, int)>, f: Flags, cb: Callbacks, outs: seq<Outcome>)
    requires IsPath(path, f, cb, outs)
    ensures |outs| + Rank(path[|outs|].0) <= 11 + 2 * Rounds(path, outs)
    decreases |outs|
  {
    if |outs| > 0 {
      var n := |outs| - 1;
      Shorter(path, f, cb, outs);
      PathsEnd(path[..n + 1], f, cb, outs[..n]);
      GetsOn(path[n].0, path[n].1, f, cb, outs[n]);
      hide Rank, Goes, Reads;
    }
  }

  lemma GetsOn(at: Place, total: int, f: Flags, cb: Callbacks, out: Outcome)
    requires !at.Over?
    ensures Rank(Goes(at, total, f, cb, out)) < Rank(at) + if at.TryRead? && !out.err then 2 else 0
  {
  }
}
