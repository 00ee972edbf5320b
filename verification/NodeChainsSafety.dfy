/** Chains stay disjoint, every node is given back once, and its count is who holds it: over all runs. */
module NodeChainsSafety {
  import opened Prelude
  import opened NodeCounts
  import opened NodeChains

  // ---------------------------------------------------------------- the invariant

  ghost predicate Distinct(s: seq<nat>)
  {
    forall i, j :: 0 <= i < j < |s| ==> s[i] != s[j]
  }

  /** All nodes of a chain are with that buffer. */
  ghost predicate InChain(b: nat, chain: seq<nat>, phase: map<nat, Phase>)
  {
    forall i :: 0 <= i < |chain| ==> chain[i] in phase && phase[chain[i]] == Chain(b)
  }

  /** The node whose Release a walk has called. */
  function Caller(j: Job): Option<nat>
  {
    if j.Walk? && j.calls != [] then Some(j.calls[0]) else None
  }

  /** Calls are nested at most twice, and the phase says how far they are. */
  predicate InWalk(b: nat, j: Job, nodes: Nodes, phase: map<nat, Phase>)
  {
    j.Walk? ==>
      && |j.calls| <= 2 && (j.calls == [] ==> !j.back)
      && (j.calls != [] ==> j.calls[0] in phase && j.calls[0] in nodes)
      && (|j.calls| == 1 ==> phase[j.calls[0]] == if j.back then Parted(b) else Leaving(b))
      && (|j.calls| == 2 ==> !j.back && phase[j.calls[0]] == Leaving(b) && nodes[j.calls[0]].origin == Some(j.calls[1]))
  }

  /** Nobody has a window on the node, and it is none. */
  predicate Spare(nodes: Nodes, x: nat)
  {
    x in nodes && nodes[x].refer == 1 && nodes[x].origin.None?
  }

  /** Nodes behind flush have never been read, unless they were appended. */
  ghost predicate SpareBehind(chain: seq<nat>, flush: nat, nodes: Nodes)
  {
    forall i :: flush < i < |chain| ==> Spare(nodes, chain[i])
  }

  ghost predicate Fine(b: nat, buf: Buffer, nodes: Nodes, phase: map<nat, Phase>)
  {
    && Pointers(buf) && InChain(b, buf.chain, phase) && Distinct(buf.chain) && InWalk(b, buf.job, nodes, phase)
    && (if buf.appended then buf.write + 1 == |buf.chain| && !buf.job.Making? else SpareBehind(buf.chain, buf.flush, nodes))
  }

  /** A node is where its phase says. */
  ghost predicate Located(s: State, x: nat, p: Phase)
  {
    match p
    case Chain(b) => b in s.bufs && x in s.bufs[b].chain
    case Stray => x in s.cut && Spare(s.nodes, x)
    case Leaving(b) => b in s.bufs && Caller(s.bufs[b].job) == Some(x)
    case Parted(b) => b in s.bufs && Caller(s.bufs[b].job) == Some(x)
    case Gone => true
  }

  ghost predicate AllFine(s: State, phase: map<nat, Phase>)
  {
    forall b :: b in s.bufs ==> Fine(b, s.bufs[b], s.nodes, phase)
  }

  ghost predicate AllLocated(s: State, phase: map<nat, Phase>)
  {
    && (forall x :: x in phase ==> Located(s, x, phase[x]))
    && (forall x :: x in s.cut ==> x in phase && phase[x].Stray?)
  }

  /** The phases account for the state. */
  ghost predicate Accounts(s: State, phase: map<nat, Phase>)
  {
    Balanced(Ledger(s.nodes, phase)) && AllFine(s, phase) && AllLocated(s, phase)
  }

  ghost predicate Inv(s: State)
  {
    exists phase :: Accounts(s, phase)
  }

  // ---------------------------------------------------------------- buffers a step does not touch

  predicate Of(p: Phase, c: nat)
  {
    (p.Chain? || p.Leaving? || p.Parted?) && p.buf == c
  }

  /** What a buffer relies on is as before. */
  ghost predicate Respects(c: nat, nodes: Nodes, phase: map<nat, Phase>, nodes': Nodes, phase': map<nat, Phase>)
  {
    forall x :: x in phase && Of(phase[x], c) ==>
      x in phase' && phase'[x] == phase[x] && x in nodes && x in nodes' && nodes'[x].origin == nodes[x].origin
  }

  ghost predicate SpareKept(buf: Buffer, nodes: Nodes, nodes': Nodes)
  {
    SpareBehind(buf.chain, buf.flush, nodes) ==> SpareBehind(buf.chain, buf.flush, nodes')
  }

  lemma StillFine(c: nat, buf: Buffer, nodes: Nodes, phase: map<nat, Phase>, nodes': Nodes, phase': map<nat, Phase>)
    requires Fine(c, buf, nodes, phase) && Respects(c, nodes, phase, nodes', phase') && SpareKept(buf, nodes, nodes')
    ensures Fine(c, buf, nodes', phase')
  {
    hide SpareBehind;
    forall i | 0 <= i < |buf.chain|
      ensures buf.chain[i] in phase' && phase'[buf.chain[i]] == Chain(c)
    {
      assert Of(phase[buf.chain[i]], c);
    }
    if Caller(buf.job).Some? { assert Of(phase[buf.job.calls[0]], c); }
  }

  /** Buffers `b` and `o` change; the others are left alone. */
  lemma Assemble(s: State, phase: map<nat, Phase>, s': State, phase': map<nat, Phase>, b: nat, o: nat)
    requires AllFine(s, phase)
    requires forall c :: c in s'.bufs && c != b && c != o ==>
      c in s.bufs && s'.bufs[c] == s.bufs[c] && Respects(c, s.nodes, phase, s'.nodes, phase') && SpareKept(s.bufs[c], s.nodes, s'.nodes)
    requires b in s'.bufs ==> Fine(b, s'.bufs[b], s'.nodes, phase')
    requires o in s'.bufs ==> Fine(o, s'.bufs[o], s'.nodes, phase')
    ensures AllFine(s', phase')
  {
    hide Fine, Respects, SpareKept;
    forall c | c in s'.bufs && c != b && c != o ensures Fine(c, s'.bufs[c], s'.nodes, phase') {
      StillFine(c, s.bufs[c], s.nodes, phase, s'.nodes, phase');
    }
  }

  // ---------------------------------------------------------------- steps that move no node

  /** A buffer is as far as chains and calls go what it was, or new. */
  predicate SamePlaces(s: State, b: nat, buf: Buffer)
  {
    if b in s.bufs then buf.chain == s.bufs[b].chain && Caller(buf.job) == Caller(s.bufs[b].job) else buf.chain == [] && Caller(buf.job).None?
  }

  lemma NothingMoves(s: State, phase: map<nat, Phase>, s': State)
    requires AllLocated(s, phase) && s'.nodes == s.nodes && s'.cut == s.cut
    requires forall b :: b in s.bufs ==> b in s'.bufs
    requires forall b :: b in s'.bufs ==> SamePlaces(s, b, s'.bufs[b])
    ensures AllLocated(s', phase)
  {
    hide Caller, Spare;
    forall x | x in phase
      ensures Located(s', x, phase[x])
    {
      assert Located(s, x, phase[x]);
    }
  }

  predicate Still(st: Step)
  {
    st.Forward? || st.Submit? || st.Advance? || st.Slice? || st.EndSlice? || st.Release? || st.Close? || st.Call? || st.Stop?
  }

  lemma StillPlaces(s: State, st: Step)
    requires Enabled(s, st) && Still(st)
    ensures var s' := Exec(s, st);
            && s'.nodes == s.nodes && s'.cut == s.cut
            && (forall b :: b in s.bufs ==> b in s'.bufs)
            && (forall b :: b in s'.bufs ==> SamePlaces(s, b, s'.bufs[b]))
  {
  }

  /** Read and flush have moved on, or the job has changed between calls. */
  predicate Onward(buf: Buffer, buf': Buffer)
  {
    && buf'.chain == buf.chain && Pointers(buf') && buf.flush <= buf'.flush
    && (buf'.appended ==> buf.appended && buf'.write == buf.write)
    && (buf.appended && !buf'.appended ==> |buf.chain| <= buf'.flush + 1)
    && (buf'.job == buf.job || buf'.job.Idle? || buf'.job.Slicing? || buf'.job == Walk([], false))
  }

  lemma OnwardFine(b: nat, buf: Buffer, buf': Buffer, nodes: Nodes, phase: map<nat, Phase>)
    requires Fine(b, buf, nodes, phase) && Onward(buf, buf')
    ensures Fine(b, buf', nodes, phase)
  {
    hide Spare, Distinct, InChain;
  }

  lemma StillOnward(s: State, st: Step, c: nat)
    requires Enabled(s, st) && Still(st) && !st.Call? && c in s.bufs && Pointers(s.bufs[c])
    requires s.bufs[c].appended ==> s.bufs[c].write + 1 == |s.bufs[c].chain|
    ensures Onward(s.bufs[c], Exec(s, st).bufs[c])
  {
  }

  /** Only the outer of two nested calls has an origin. */
  lemma CallNests(b: nat, j: Job, nodes: Nodes, phase: map<nat, Phase>)
    requires Balanced(Ledger(nodes, phase)) && InWalk(b, j, nodes, phase)
    requires j.Walk? && j.calls != [] && !j.back && Top(j.calls) in nodes && nodes[Top(j.calls)].origin.Some?
    ensures InWalk(b, Walk(j.calls + [nodes[Top(j.calls)].origin.value], false), nodes, phase)
  {
    hide Holders;
    assert Shaped(Ledger(nodes, phase), j.calls[0]);
  }

  lemma CallFine(s: State, phase: map<nat, Phase>, b: nat)
    requires Balanced(Ledger(s.nodes, phase)) && Enabled(s, Call(b)) && Fine(b, s.bufs[b], s.nodes, phase)
    ensures Fine(b, WalkStep(s, Call(b)).bufs[b], s.nodes, phase)
  {
    hide Balanced, Spare, Distinct, InChain, SpareBehind, InWalk;
    CallNests(b, s.bufs[b].job, s.nodes, phase);
  }

  /** A buffer such a step changes is in order. */
  lemma StillBuffer(s: State, phase: map<nat, Phase>, st: Step, c: nat)
    requires Balanced(Ledger(s.nodes, phase)) && AllFine(s, phase) && Enabled(s, st) && Still(st) && c in Exec(s, st).bufs
    ensures Fine(c, Exec(s, st).bufs[c], s.nodes, phase)
  {
    hide Balanced;
    assert c in s.bufs ==> Fine(c, s.bufs[c], s.nodes, phase);
    if st.Call? {
      hide Fine;
      if c == st.b { CallFine(s, phase, c); }
    } else if c in s.bufs {
      StillOnward(s, st, c);
      hide Fine, Exec;
      OnwardFine(c, s.bufs[c], Exec(s, st).bufs[c], s.nodes, phase);
    }
  }

  lemma StillKeeps(s: State, phase: map<nat, Phase>, st: Step)
    requires Accounts(s, phase) && Enabled(s, st) && Still(st)
    ensures Accounts(Exec(s, st), phase)
  {
    hide Balanced, Enabled, Exec, Still, Fine, AllLocated;
    StillPlaces(s, st);
    NothingMoves(s, phase, Exec(s, st));
    forall c | c in Exec(s, st).bufs ensures Fine(c, Exec(s, st).bufs[c], s.nodes, phase) {
      StillBuffer(s, phase, st, c);
    }
  }

  // ---------------------------------------------------------------- MallocAck, no-copy reads

  /** MallocAck resets counts that are one already. */
  lemma AckResets(s: State, phase: map<nat, Phase>, b: nat, to: nat)
    requires AllFine(s, phase) && Enabled(s, Ack(b, to))
    ensures Reset(s.nodes, s.bufs[b].chain[to + 1..]) == s.nodes
  {
    var buf := s.bufs[b];
    assert Fine(b, buf, s.nodes, phase);
    forall x | x in s.nodes && x in buf.chain[to + 1..] ensures s.nodes[x].refer == 1 {
      var i :| 0 <= i < |buf.chain[to + 1..]| && buf.chain[to + 1..][i] == x;
      assert Spare(s.nodes, buf.chain[to + 1 + i]);
    }
  }

  lemma AckKeeps(s: State, phase: map<nat, Phase>, b: nat, to: nat)
    requires Accounts(s, phase) && Enabled(s, Ack(b, to))
    ensures Accounts(WriterStep(s, Ack(b, to)), phase)
  {
    hide Balanced, Fine, Located, Reset;
    var s' := WriterStep(s, Ack(b, to));
    AckResets(s, phase, b, to);
    NothingMoves(s, phase, s');
    OnwardFine(b, s.bufs[b], s'.bufs[b], s.nodes, phase);
  }

  /** Only the mark changes. */
  lemma MarkApart(c: nat, buf: Buffer, nodes: Nodes, phase: map<nat, Phase>, x: nat)
    requires phase.Keys == nodes.Keys && x in nodes
    ensures var nodes' := nodes[x := nodes[x].(nocopy := true)];
            && Respects(c, nodes, phase, nodes', phase) && SpareKept(buf, nodes, nodes')
            && forall z :: Spare(nodes, z) ==> Spare(nodes', z)
  {
  }

  lemma MarkKeeps(s: State, phase: map<nat, Phase>, b: nat)
    requires Accounts(s, phase) && Enabled(s, Mark(b))
    ensures Accounts(ReaderStep(s, Mark(b)), phase)
  {
    hide Balanced, AllLocated, Respects, SpareKept, AllFine, Spare;
    var s', x := ReaderStep(s, Mark(b)), s.bufs[b].chain[s.bufs[b].read];
    SameNodes(s, phase);
    FineOf(s, phase, b);
    assert phase[x] == Chain(b);
    hide Fine;
    EntryKeeps(Ledger(s.nodes, phase), Pin(x));
    forall c | c in s.bufs
      ensures Respects(c, s.nodes, phase, s'.nodes, phase) && SpareKept(s.bufs[c], s.nodes, s'.nodes)
    {
      MarkApart(c, s.bufs[c], s.nodes, phase, x);
    }
    StillFine(b, s.bufs[b], s.nodes, phase, s'.nodes, phase);
    Assemble(s, phase, s', phase, b, b);
    MarkApart(b, s.bufs[b], s.nodes, phase, x);
    SpareLocated(s, phase, s');
  }

  lemma SpareLocated(s: State, phase: map<nat, Phase>, s': State)
    requires AllLocated(s, phase) && s'.bufs == s.bufs && s'.cut == s.cut && forall z :: Spare(s.nodes, z) ==> Spare(s'.nodes, z)
    ensures AllLocated(s', phase)
  {
    hide Spare;
    forall z | z in phase ensures Located(s', z, phase[z]) { assert Located(s, z, phase[z]); }
  }

  lemma SameNodes(s: State, phase: map<nat, Phase>)
    requires Balanced(Ledger(s.nodes, phase))
    ensures phase.Keys == s.nodes.Keys
  {
  }

  // ---------------------------------------------------------------- nodes that are linked in

  /** A new node is nobody else's business. */
  lemma NewApart(c: nat, buf: Buffer, nodes: Nodes, phase: map<nat, Phase>, x: nat, nd: Node, p: Phase)
    requires phase.Keys == nodes.Keys && x !in nodes
    ensures Respects(c, nodes, phase, nodes[x := nd], phase[x := p]) && SpareKept(buf, nodes, nodes[x := nd])
  {
  }

  lemma MakeFine(s: State, phase: map<nat, Phase>, b: nat, x: nat, readonly: bool)
    requires AllFine(s, phase) && phase.Keys == s.nodes.Keys && Enabled(s, Make(b, x, readonly))
    ensures AllFine(WriterStep(s, Make(b, x, readonly)), phase[x := Chain(b)])
  {
    hide Fine, Respects, SpareKept, AllFine;
    var s', phase' := WriterStep(s, Make(b, x, readonly)), phase[x := Chain(b)];
    forall c | c in s.bufs
      ensures Respects(c, s.nodes, phase, s'.nodes, phase') && SpareKept(s.bufs[c], s.nodes, s'.nodes)
    {
      NewApart(c, s.bufs[c], s.nodes, phase, x, Made(readonly), Chain(b));
    }
    MadeFine(b, x, s'.nodes, phase');
    Assemble(s, phase, s', phase', b, b);
  }

  lemma MakeLocated(s: State, phase: map<nat, Phase>, b: nat, x: nat, readonly: bool)
    requires AllLocated(s, phase) && phase.Keys == s.nodes.Keys && Enabled(s, Make(b, x, readonly))
    ensures AllLocated(WriterStep(s, Make(b, x, readonly)), phase[x := Chain(b)])
  {
    var s', phase' := WriterStep(s, Make(b, x, readonly)), phase[x := Chain(b)];
    forall z | z in phase' ensures Located(s', z, phase'[z]) {
      if z != x { assert Located(s, z, phase[z]); }
    }
  }

  lemma MakeKeeps(s: State, phase: map<nat, Phase>, b: nat, x: nat, readonly: bool)
    requires Accounts(s, phase) && Enabled(s, Make(b, x, readonly))
    ensures Accounts(WriterStep(s, Make(b, x, readonly)), phase[x := Chain(b)])
  {
    hide Balanced, AllFine, AllLocated;
    EntryKeeps(Ledger(s.nodes, phase), New(x, b, readonly));
    SameNodes(s, phase);
    MakeFine(s, phase, b, x, readonly);
    MakeLocated(s, phase, b, x, readonly);
  }

  lemma MadeFine(b: nat, x: nat, nodes: Nodes, phase: map<nat, Phase>)
    requires x in phase && phase[x] == Chain(b)
    ensures Fine(b, Buffer([x], 0, 0, 0, false, Idle), nodes, phase)
  {
  }

  /** Some nodes get another phase. */
  function Restamp(phase: map<nat, Phase>, xs: seq<nat>, p: Phase): map<nat, Phase>
  {
    map x | x in phase :: if x in xs then p else phase[x]
  }

  /** Nodes behind write, which nobody has seen, are cut off. */
  function CutPhase(buf: Buffer, phase: map<nat, Phase>): map<nat, Phase>
    requires buf.write < |buf.chain|
  {
    Restamp(phase, CutOff(buf), Stray)
  }

  lemma CutOffFacts(b: nat, buf: Buffer, nodes: Nodes, phase: map<nat, Phase>)
    requires Fine(b, buf, nodes, phase) && buf.write < |buf.chain|
    ensures forall x :: x in CutOff(buf) ==> x in phase && phase[x] == Chain(b) && Spare(nodes, x) && x !in buf.chain[..buf.write + 1]
    ensures Handed(phase, CutPhase(buf, phase))
    ensures forall x :: x in buf.chain ==> x in CutOff(buf) || x in buf.chain[..buf.write + 1]
  {
    hide InWalk;
    forall x | x in CutOff(buf)
      ensures x in phase && phase[x] == Chain(b) && Spare(nodes, x) && x !in buf.chain[..buf.write + 1]
    {
      var i :| 0 <= i < |CutOff(buf)| && CutOff(buf)[i] == x;
      assert buf.chain[buf.write + 1 + i] == x;
    }
  }

  /** Nodes that were cut off or moved from `o` to `b` are nobody else's business. */
  lemma StampApart(c: nat, nodes: Nodes, phase: map<nat, Phase>, xs: seq<nat>, p: Phase)
    requires phase.Keys == nodes.Keys && forall x :: x in xs ==> x in phase && !Of(phase[x], c)
    ensures Respects(c, nodes, phase, nodes, Restamp(phase, xs, p))
  {
  }

  lemma GrownChain(b: nat, chain: seq<nat>, w: nat, phase: map<nat, Phase>, x: nat, phase': map<nat, Phase>)
    requires InChain(b, chain, phase) && Distinct(chain) && w < |chain| && x !in phase && x in phase' && phase'[x] == Chain(b)
    requires forall i :: 0 <= i <= w && chain[i] in phase ==> chain[i] in phase' && phase'[chain[i]] == phase[chain[i]]
    ensures InChain(b, chain[..w + 1] + [x], phase') && Distinct(chain[..w + 1] + [x])
  {
    var more := chain[..w + 1] + [x];
    forall i | 0 <= i <= w ensures more[i] == chain[i] && more[i] in phase && more[i] != x {}
    assert more[w + 1] == x;
  }

  lemma GrownSpare(chain: seq<nat>, flush: nat, w: nat, nodes: Nodes, x: nat, readonly: bool)
    requires SpareBehind(chain, flush, nodes) && w < |chain| && x !in nodes
    ensures SpareBehind(chain[..w + 1] + [x], flush, nodes[x := Made(readonly)])
  {
  }

  /** The chain keeps its nodes up to write, and gets one more. */
  lemma GrownFine(b: nat, buf: Buffer, nodes: Nodes, phase: map<nat, Phase>, x: nat, readonly: bool)
    requires Fine(b, buf, nodes, phase) && buf.write < |buf.chain| && x !in nodes && phase.Keys == nodes.Keys && !buf.job.Making?
    ensures Fine(b, Relinked(buf, [x]), nodes[x := Made(readonly)], CutPhase(buf, phase)[x := Chain(b)])
  {
    hide SpareBehind, InWalk, Distinct, CutOff;
    var nodes', phase' := nodes[x := Made(readonly)], CutPhase(buf, phase)[x := Chain(b)];
    CutOffFacts(b, buf, nodes, phase);
    forall i | 0 <= i <= buf.write ensures phase'[buf.chain[i]] == phase[buf.chain[i]] {
      assert buf.chain[i] in buf.chain[..buf.write + 1];
    }
    if Caller(buf.job).Some? { CallerOf(b, buf.job, nodes, phase); }
    WalkKept(b, buf.job, nodes, phase, nodes', phase');
    hide CutPhase;
    GrownChain(b, buf.chain, buf.write, phase, x, phase');
    hide InChain;
    if !buf.appended { GrownSpare(buf.chain, buf.flush, buf.write, nodes, x, readonly); }
  }

  lemma CallerOf(b: nat, j: Job, nodes: Nodes, phase: map<nat, Phase>)
    requires InWalk(b, j, nodes, phase) && Caller(j).Some?
    ensures Caller(j).value in phase && Caller(j).value in nodes && !phase[Caller(j).value].Chain?
  {
  }

  /** The nodes a walk is in are in no chain. */
  lemma WalkKept(b: nat, j: Job, nodes: Nodes, phase: map<nat, Phase>, nodes': Nodes, phase': map<nat, Phase>)
    requires InWalk(b, j, nodes, phase)
    requires Caller(j).Some? ==> var x := Caller(j).value; x in phase' && x in nodes' && phase'[x] == phase[x] && nodes'[x].origin == nodes[x].origin
    ensures InWalk(b, j, nodes', phase')
  {
  }

  lemma GrowFine(s: State, phase: map<nat, Phase>, b: nat, x: nat, readonly: bool)
    requires AllFine(s, phase) && phase.Keys == s.nodes.Keys && Enabled(s, Grow(b, x, readonly))
    ensures AllFine(WriterStep(s, Grow(b, x, readonly)), CutPhase(s.bufs[b], phase)[x := Chain(b)])
  {
    hide Fine, Respects, SpareKept, AllFine, CutOff, Relinked, Elements;
    var buf, s' := s.bufs[b], WriterStep(s, Grow(b, x, readonly));
    var mid := CutPhase(buf, phase);
    assert Fine(b, buf, s.nodes, phase) by { FineOf(s, phase, b); }
    CutOffFacts(b, buf, s.nodes, phase);
    GrownFine(b, buf, s.nodes, phase, x, readonly);
    forall c | c in s.bufs && c != b
      ensures Respects(c, s.nodes, phase, s'.nodes, mid[x := Chain(b)]) && SpareKept(s.bufs[c], s.nodes, s'.nodes)
    {
      StampApart(c, s.nodes, phase, CutOff(buf), Stray);
      NewApart(c, s.bufs[c], s.nodes, mid, x, Made(readonly), Chain(b));
      RespectsOn(c, s.nodes, phase, s.nodes, mid, s'.nodes, mid[x := Chain(b)]);
    }
    Assemble(s, phase, s', mid[x := Chain(b)], b, b);
  }

  lemma FineOf(s: State, phase: map<nat, Phase>, b: nat)
    requires AllFine(s, phase) && b in s.bufs
    ensures Fine(b, s.bufs[b], s.nodes, phase)
  {
  }

  lemma RespectsOn(c: nat, n0: Nodes, p0: map<nat, Phase>, n1: Nodes, p1: map<nat, Phase>, n2: Nodes, p2: map<nat, Phase>)
    requires Respects(c, n0, p0, n1, p1) && Respects(c, n1, p1, n2, p2)
    ensures Respects(c, n0, p0, n2, p2)
  {
  }

  lemma GrowLocates(s: State, phase: map<nat, Phase>, b: nat, x: nat, readonly: bool, z: nat)
    requires Enabled(s, Grow(b, x, readonly)) && phase.Keys == s.nodes.Keys && z in phase && Located(s, z, phase[z])
    requires z in s.bufs[b].chain ==> z in CutOff(s.bufs[b]) || z in s.bufs[b].chain[..s.bufs[b].write + 1]
    requires z in CutOff(s.bufs[b]) ==> Spare(s.nodes, z)
    ensures Located(WriterStep(s, Grow(b, x, readonly)), z, CutPhase(s.bufs[b], phase)[z])
  {
    hide CutOff;
    assert z != x;
  }

  lemma GrowLocated(s: State, phase: map<nat, Phase>, b: nat, x: nat, readonly: bool)
    requires AllLocated(s, phase) && AllFine(s, phase) && phase.Keys == s.nodes.Keys && Enabled(s, Grow(b, x, readonly))
    ensures AllLocated(WriterStep(s, Grow(b, x, readonly)), CutPhase(s.bufs[b], phase)[x := Chain(b)])
  {
    hide Fine, AllFine, CutOff, Located, Elements;
    var buf, s', phase' := s.bufs[b], WriterStep(s, Grow(b, x, readonly)), CutPhase(s.bufs[b], phase)[x := Chain(b)];
    assert Fine(b, buf, s.nodes, phase) by { FineOf(s, phase, b); }
    CutOffFacts(b, buf, s.nodes, phase);
    forall z | z in phase ensures Located(s', z, CutPhase(buf, phase)[z]) {
      GrowLocates(s, phase, b, x, readonly, z);
    }
    LastIn(s', b, x);
    CutStays(s.cut, CutOff(buf), phase);
  }

  lemma LastIn(s: State, b: nat, x: nat)
    requires b in s.bufs && s.bufs[b].chain != [] && s.bufs[b].chain[|s.bufs[b].chain| - 1] == x
    ensures Located(s, x, Chain(b))
  {
  }

  lemma CutStays(cut: set<nat>, xs: seq<nat>, phase: map<nat, Phase>)
    requires (forall x :: x in cut ==> x in phase && phase[x].Stray?) && forall x :: x in xs ==> x in phase
    ensures forall x :: x in cut + Elements(xs) ==> x in phase && Restamp(phase, xs, Stray)[x].Stray?
  {
  }

  lemma GrowKeeps(s: State, phase: map<nat, Phase>, b: nat, x: nat, readonly: bool)
    requires Accounts(s, phase) && Enabled(s, Grow(b, x, readonly))
    ensures Accounts(WriterStep(s, Grow(b, x, readonly)), CutPhase(s.bufs[b], phase)[x := Chain(b)])
  {
    hide Balanced, AllFine, AllLocated, CutPhase, CutOff, Handed, Relinked, Elements;
    SameNodes(s, phase);
    assert Fine(b, s.bufs[b], s.nodes, phase) by { FineOf(s, phase, b); }
    CutOffFacts(b, s.bufs[b], s.nodes, phase);
    HandingKeeps(Ledger(s.nodes, phase), CutPhase(s.bufs[b], phase));
    EntryKeeps(Ledger(s.nodes, CutPhase(s.bufs[b], phase)), New(x, b, readonly));
    GrowFine(s, phase, b, x, readonly);
    GrowLocated(s, phase, b, x, readonly);
  }

  // ---------------------------------------------------------------- a walk gives nodes back

  /** Changing one node of `b`, but not its origin, disturbs no other buffer. */
  lemma OneApart(c: nat, nodes: Nodes, phase: map<nat, Phase>, x: nat, nd: Node, p: Phase)
    requires phase.Keys == nodes.Keys && x in nodes && (!Of(phase[x], c) || (p == phase[x] && nd.origin == nodes[x].origin))
    ensures Respects(c, nodes, phase, nodes[x := nd], phase[x := p])
  {
  }

  /** Unless a node behind flush loses its count of one. */
  lemma OneSpare(buf: Buffer, nodes: Nodes, x: nat, nd: Node)
    requires !Spare(nodes, x) || (nd.refer == 1 && nd.origin.None?)
    ensures SpareKept(buf, nodes, nodes[x := nd])
  {
  }

  function Leaver(nodes: Nodes, x: nat): Node
    requires x in nodes
  {
    nodes[x].(released := nodes[x].released + 1)
  }

  lemma TakenFine(b: nat, buf: Buffer, nodes: Nodes, phase: map<nat, Phase>)
    requires Fine(b, buf, nodes, phase) && Walking(buf.job) && 0 < buf.read && buf.chain[0] in nodes && phase.Keys == nodes.Keys
    ensures var x := buf.chain[0];
            Fine(b, Buffer(buf.chain[1..], buf.read - 1, buf.flush - 1, buf.write - 1, buf.appended, Walk([x], false)),
                 nodes[x := Leaver(nodes, x)], phase[x := Leaving(b)])
  {
    var x := buf.chain[0];
    forall i | 0 <= i < |buf.chain| - 1 ensures buf.chain[1..][i] == buf.chain[i + 1] && buf.chain[i + 1] != x {}
  }

  lemma NextFine(s: State, phase: map<nat, Phase>, b: nat)
    requires AllFine(s, phase) && phase.Keys == s.nodes.Keys && Enabled(s, Next(b))
    ensures AllFine(WalkStep(s, Next(b)), phase[s.bufs[b].chain[0] := Leaving(b)])
  {
    hide Fine, Respects, SpareKept, AllFine, Spare, Leaver;
    var x, s' := s.bufs[b].chain[0], WalkStep(s, Next(b));
    FineOf(s, phase, b);
    assert phase[x] == Chain(b) by { FirstIs(b, s.bufs[b], s.nodes, phase); }
    assert s'.nodes == s.nodes[x := Leaver(s.nodes, x)] by { LeaverIs(s.nodes, x); }
    forall c | c in s.bufs && c != b
      ensures Respects(c, s.nodes, phase, s'.nodes, phase[x := Leaving(b)]) && SpareKept(s.bufs[c], s.nodes, s'.nodes)
    {
      OneApart(c, s.nodes, phase, x, Leaver(s.nodes, x), Leaving(b));
      LeaverIs(s.nodes, x);
      OneSpare(s.bufs[c], s.nodes, x, Leaver(s.nodes, x));
    }
    TakenFine(b, s.bufs[b], s.nodes, phase);
    Assemble(s, phase, s', phase[x := Leaving(b)], b, b);
  }

  lemma LeaverIs(nodes: Nodes, x: nat)
    requires x in nodes
    ensures Leaver(nodes, x) == nodes[x].(released := nodes[x].released + 1)
    ensures !Spare(nodes, x) || (Leaver(nodes, x).refer == 1 && Leaver(nodes, x).origin.None?)
  {
  }

  lemma FirstIs(b: nat, buf: Buffer, nodes: Nodes, phase: map<nat, Phase>)
    requires Fine(b, buf, nodes, phase) && buf.chain != []
    ensures buf.chain[0] in phase && phase[buf.chain[0]] == Chain(b)
  {
  }

  lemma NextLocates(s: State, phase: map<nat, Phase>, b: nat, z: nat)
    requires Enabled(s, Next(b)) && z in phase && Located(s, z, phase[z]) && z != s.bufs[b].chain[0]
    ensures Located(WalkStep(s, Next(b)), z, phase[z])
  {
    var chain := s.bufs[b].chain;
    if z in chain {
      var i :| 0 <= i < |chain| && chain[i] == z;
      assert chain[1..][i - 1] == z;
    }
  }

  lemma NextLocated(s: State, phase: map<nat, Phase>, b: nat)
    requires AllLocated(s, phase) && Enabled(s, Next(b)) && s.bufs[b].chain[0] in phase && phase[s.bufs[b].chain[0]] == Chain(b)
    ensures AllLocated(WalkStep(s, Next(b)), phase[s.bufs[b].chain[0] := Leaving(b)])
  {
    var x, s' := s.bufs[b].chain[0], WalkStep(s, Next(b));
    assert Located(s', x, Leaving(b));
    hide Located;
    forall z | z in phase && z != x ensures Located(s', z, phase[z]) { NextLocates(s, phase, b, z); }
  }

  lemma NextKeeps(s: State, phase: map<nat, Phase>, b: nat)
    requires Accounts(s, phase) && Enabled(s, Next(b))
    ensures Accounts(WalkStep(s, Next(b)), phase[s.bufs[b].chain[0] := Leaving(b)])
  {
    hide Balanced, AllFine, AllLocated, Fine;
    FineOf(s, phase, b);
    FirstIs(b, s.bufs[b], s.nodes, phase);
    SameNodes(s, phase);
    EntryKeeps(Ledger(s.nodes, phase), Leave(s.bufs[b].chain[0], b));
    NextFine(s, phase, b);
    NextLocated(s, phase, b);
  }

  /** Whose phase a decrement changes, and to what. */
  function DecPhase(b: nat, calls: seq<nat>, phase: map<nat, Phase>): map<nat, Phase>
    requires calls != []
  {
    phase[calls[0] := if |calls| == 1 then Gone else Parted(b)]
  }

  function DecEntry(calls: seq<nat>): Entry
    requires calls != []
  {
    if |calls| == 1 then Finish(calls[0]) else Part(calls[0])
  }

  predicate CanDec(j: Job, nodes: Nodes)
  {
    j.Walk? && j.calls != [] && Top(j.calls) in nodes && (j.back || nodes[Top(j.calls)].origin.None?)
  }

  function Decremented(calls: seq<nat>, nodes: Nodes): Nodes
    requires calls != [] && Top(calls) in nodes
  {
    nodes[Top(calls) := Drop(nodes[Top(calls)])]
  }

  /** What a decrement hits is the node itself, or its root, which a chain or another window holds. */
  lemma DecFacts(b: nat, j: Job, nodes: Nodes, phase: map<nat, Phase>)
    requires Balanced(Ledger(nodes, phase)) && InWalk(b, j, nodes, phase) && CanDec(j, nodes)
    ensures var calls := j.calls;
            && |calls| <= 2 && calls[0] in nodes && calls[0] in phase && Of(phase[calls[0]], b) && !phase[calls[0]].Chain? && 0 < nodes[Top(calls)].refer
            && (|calls| == 1 ==> phase[calls[0]].Parted? || nodes[calls[0]].origin.None?)
            && (|calls| == 2 ==> phase[calls[0]].Leaving? && calls[1] in phase && calls[1] != calls[0] && nodes[calls[1]].origin.None?)
            && (|calls| == 2 && !phase[calls[1]].Gone? ==> 1 < nodes[calls[1]].refer)
  {
    hide Holders;
    var h := Ledger(nodes, phase);
    Positive(h, j.calls[0]);
    if |j.calls| == 2 { Shared(h, j.calls[0]); }
  }

  lemma DecEntered(b: nat, j: Job, nodes: Nodes, phase: map<nat, Phase>)
    requires Balanced(Ledger(nodes, phase)) && InWalk(b, j, nodes, phase) && CanDec(j, nodes)
    ensures Balanced(Ledger(Decremented(j.calls, nodes), DecPhase(b, j.calls, phase)))
  {
    hide Balanced, Drop;
    DecFacts(b, j, nodes, phase);
    EntryKeeps(Ledger(nodes, phase), DecEntry(j.calls));
  }

  /** Nothing behind a flush pointer is hit. */
  lemma DecSpares(b: nat, c: nat, buf: Buffer, j: Job, nodes: Nodes, phase: map<nat, Phase>)
    requires Balanced(Ledger(nodes, phase)) && InWalk(b, j, nodes, phase) && CanDec(j, nodes) && Fine(c, buf, nodes, phase)
    ensures SpareKept(buf, nodes, Decremented(j.calls, nodes))
  {
    hide Balanced, InWalk, Distinct;
    DecFacts(b, j, nodes, phase);
    var x, nodes' := Top(j.calls), Decremented(j.calls, nodes);
    if SpareBehind(buf.chain, buf.flush, nodes) {
      forall i | buf.flush < i < |buf.chain| ensures Spare(nodes', buf.chain[i]) {
        assert Spare(nodes, buf.chain[i]) && phase[buf.chain[i]] == Chain(c);
      }
    }
  }

  /** Origins are as they were, but for a node that is gone. */
  lemma DecApart(b: nat, c: nat, j: Job, nodes: Nodes, phase: map<nat, Phase>)
    requires Balanced(Ledger(nodes, phase)) && InWalk(b, j, nodes, phase) && CanDec(j, nodes) && c != b
    ensures Respects(c, nodes, phase, Decremented(j.calls, nodes), DecPhase(b, j.calls, phase))
  {
    hide Balanced, InWalk;
    DecFacts(b, j, nodes, phase);
    SameKeysOf(nodes, phase);
  }

  lemma SameKeysOf(nodes: Nodes, phase: map<nat, Phase>)
    requires Balanced(Ledger(nodes, phase))
    ensures phase.Keys == nodes.Keys
  {
  }

  lemma DecBuffer(b: nat, buf: Buffer, nodes: Nodes, phase: map<nat, Phase>)
    requires Balanced(Ledger(nodes, phase)) && Fine(b, buf, nodes, phase) && CanDec(buf.job, nodes)
    ensures var calls := buf.job.calls;
            var outer := calls[..|calls| - 1];
            Fine(b, buf.(job := Walk(outer, outer != [])), Decremented(calls, nodes), DecPhase(b, calls, phase))
  {
    hide Balanced, Distinct;
    var j := buf.job;
    DecFacts(b, j, nodes, phase);
    DecSpares(b, b, buf, j, nodes, phase);
    hide SpareBehind;
  }

  lemma DecFine(s: State, phase: map<nat, Phase>, b: nat)
    requires Balanced(Ledger(s.nodes, phase)) && AllFine(s, phase) && Enabled(s, Dec(b))
    ensures AllFine(WalkStep(s, Dec(b)), DecPhase(b, s.bufs[b].job.calls, phase))
  {
    hide Balanced, Fine, Respects, SpareKept, AllFine, DecPhase, Drop;
    var j, s' := s.bufs[b].job, WalkStep(s, Dec(b));
    FineOf(s, phase, b);
    WalkOf(b, s.bufs[b], s.nodes, phase);
    hide InWalk;
    forall c | c in s.bufs && c != b
      ensures Respects(c, s.nodes, phase, s'.nodes, DecPhase(b, j.calls, phase)) && SpareKept(s.bufs[c], s.nodes, s'.nodes)
    {
      FineOf(s, phase, c);
      DecApart(b, c, j, s.nodes, phase);
      DecSpares(b, c, s.bufs[c], j, s.nodes, phase);
    }
    DecBuffer(b, s.bufs[b], s.nodes, phase);
    Assemble(s, phase, s', DecPhase(b, j.calls, phase), b, b);
  }

  lemma WalkOf(b: nat, buf: Buffer, nodes: Nodes, phase: map<nat, Phase>)
    requires Fine(b, buf, nodes, phase)
    ensures InWalk(b, buf.job, nodes, phase)
  {
  }

  lemma DecLocates(s: State, phase: map<nat, Phase>, b: nat, z: nat)
    requires Balanced(Ledger(s.nodes, phase)) && Enabled(s, Dec(b)) && InWalk(b, s.bufs[b].job, s.nodes, phase)
    requires z in phase && Located(s, z, phase[z])
    ensures Located(WalkStep(s, Dec(b)), z, DecPhase(b, s.bufs[b].job.calls, phase)[z])
  {
    hide Balanced;
    DecFacts(b, s.bufs[b].job, s.nodes, phase);
    hide InWalk;
  }

  lemma DecLocated(s: State, phase: map<nat, Phase>, b: nat)
    requires Balanced(Ledger(s.nodes, phase)) && AllLocated(s, phase) && Enabled(s, Dec(b)) && InWalk(b, s.bufs[b].job, s.nodes, phase)
    ensures AllLocated(WalkStep(s, Dec(b)), DecPhase(b, s.bufs[b].job.calls, phase))
  {
    hide Balanced, Located;
    DecFacts(b, s.bufs[b].job, s.nodes, phase);
    hide InWalk;
    var calls, s' := s.bufs[b].job.calls, WalkStep(s, Dec(b));
    forall z | z in phase ensures Located(s', z, DecPhase(b, calls, phase)[z]) { DecLocates(s, phase, b, z); }
  }

  lemma DecKeeps(s: State, phase: map<nat, Phase>, b: nat)
    requires Accounts(s, phase) && Enabled(s, Dec(b))
    ensures Accounts(WalkStep(s, Dec(b)), DecPhase(b, s.bufs[b].job.calls, phase))
  {
    hide Balanced, AllFine, AllLocated, Fine, DecPhase, InWalk, Drop;
    FineOf(s, phase, b);
    WalkOf(b, s.bufs[b], s.nodes, phase);
    DecEntered(b, s.bufs[b].job, s.nodes, phase);
    DecFine(s, phase, b);
    DecLocated(s, phase, b);
  }

  // ---------------------------------------------------------------- Slice

  /** The node a window is made on is not behind flush, nor is its root. */
  lemma ReferSpares(s: State, phase: map<nat, Phase>, b: nat, z: nat)
    requires Balanced(Ledger(s.nodes, phase)) && b in s.bufs && Fine(b, s.bufs[b], s.nodes, phase)
    requires s.bufs[b].read < |s.bufs[b].chain| && z in phase && Spare(s.nodes, z) && phase[z] != Gone && z != s.bufs[b].chain[s.bufs[b].read]
    ensures s.bufs[b].chain[s.bufs[b].read] in s.nodes && z != Root(s.nodes, s.bufs[b].chain[s.bufs[b].read])
  {
    hide Holders;
    var x := s.bufs[b].chain[s.bufs[b].read];
    assert phase[x] == Chain(b);
    if s.nodes[x].origin.Some? { Shared(Ledger(s.nodes, phase), x); }
  }

  lemma ReferApart(c: nat, nodes: Nodes, phase: map<nat, Phase>, x: nat, y: nat, p: nat)
    requires phase.Keys == nodes.Keys && x in nodes && Root(nodes, x) in nodes && y !in nodes
    ensures Respects(c, nodes, phase, Referred(nodes, x, y), phase[y := Chain(p)])
  {
  }

  /** Behind the flush pointers counts stay one. */
  lemma ReferSpareKept(s: State, phase: map<nat, Phase>, b: nat, c: nat, y: nat)
    requires Balanced(Ledger(s.nodes, phase)) && AllFine(s, phase) && Enabled(s, Refer(b, y)) && c in s.bufs
    ensures SpareKept(s.bufs[c], s.nodes, Referred(s.nodes, s.bufs[b].chain[s.bufs[b].read], y))
  {
    FineOf(s, phase, b);
    FineOf(s, phase, c);
    hide Balanced, AllFine, InWalk;
    var buf, from := s.bufs[c], s.bufs[b];
    var x := from.chain[from.read];
    if SpareBehind(buf.chain, buf.flush, s.nodes) {
      forall i | buf.flush < i < |buf.chain| ensures Spare(Referred(s.nodes, x, y), buf.chain[i]) {
        var z := buf.chain[i];
        assert Spare(s.nodes, z) && phase[z] == Chain(c) && phase[x] == Chain(b);
        ReferSpares(s, phase, b, z);
      }
    }
  }

  lemma SliceGrows(p: nat, buf: Buffer, nodes: Nodes, phase: map<nat, Phase>, nodes': Nodes, y: nat)
    requires Fine(p, buf, nodes, phase) && buf.job.Making? && y !in phase
    ensures var n := |buf.chain| + 1; Fine(p, buf.(chain := buf.chain + [y], flush := n, write := n), nodes', phase[y := Chain(p)])
  {
  }

  lemma ReferFine(s: State, phase: map<nat, Phase>, b: nat, y: nat)
    requires Balanced(Ledger(s.nodes, phase)) && AllFine(s, phase) && Enabled(s, Refer(b, y))
    ensures AllFine(ReaderStep(s, Refer(b, y)), phase[y := Chain(s.bufs[b].job.to)])
  {
    hide Balanced, Fine, Respects, SpareKept, AllFine, Referred;
    var p, x, s' := s.bufs[b].job.to, s.bufs[b].chain[s.bufs[b].read], ReaderStep(s, Refer(b, y));
    SameNodes(s, phase);
    forall c | c in s.bufs && c != p
      ensures Respects(c, s.nodes, phase, s'.nodes, phase[y := Chain(p)]) && SpareKept(s.bufs[c], s.nodes, s'.nodes)
    {
      ReferApart(c, s.nodes, phase, x, y, p);
      ReferSpareKept(s, phase, b, c, y);
    }
    FineOf(s, phase, p);
    SliceGrows(p, s.bufs[p], s.nodes, phase, s'.nodes, y);
    Assemble(s, phase, s', phase[y := Chain(p)], p, p);
  }

  lemma ReferLocates(s: State, phase: map<nat, Phase>, b: nat, y: nat, z: nat)
    requires Balanced(Ledger(s.nodes, phase)) && Enabled(s, Refer(b, y)) && Fine(b, s.bufs[b], s.nodes, phase)
    requires z in phase && Located(s, z, phase[z])
    ensures Located(ReaderStep(s, Refer(b, y)), z, phase[z])
  {
    hide Balanced;
    var x := s.bufs[b].chain[s.bufs[b].read];
    assert phase[x] == Chain(b);
    hide Fine;
    SameNodes(s, phase);
    if phase[z].Stray? {
      ReferSpares(s, phase, b, z);
      assert Spare(Referred(s.nodes, x, y), z);
    } else {
      hide Referred, Spare;
    }
  }

  lemma ReferLocated(s: State, phase: map<nat, Phase>, b: nat, y: nat)
    requires Accounts(s, phase) && Enabled(s, Refer(b, y))
    ensures AllLocated(ReaderStep(s, Refer(b, y)), phase[y := Chain(s.bufs[b].job.to)])
  {
    hide Balanced, Fine, Located, AllFine;
    var p, s' := s.bufs[b].job.to, ReaderStep(s, Refer(b, y));
    SameNodes(s, phase);
    FineOf(s, phase, b);
    forall z | z in phase ensures Located(s', z, phase[z]) { ReferLocates(s, phase, b, y, z); }
    LastIn(s', p, y);
  }

  lemma ReferKeeps(s: State, phase: map<nat, Phase>, b: nat, y: nat)
    requires Accounts(s, phase) && Enabled(s, Refer(b, y))
    ensures Accounts(ReaderStep(s, Refer(b, y)), phase[y := Chain(s.bufs[b].job.to)])
  {
    ReferLocated(s, phase, b, y);
    hide Balanced, AllFine, AllLocated, Referred;
    var buf := s.bufs[b];
    FineOf(s, phase, b);
    assert phase[buf.chain[buf.read]] == Chain(b);
    hide Fine;
    SameNodes(s, phase);
    EntryKeeps(Ledger(s.nodes, phase), Attach(buf.chain[buf.read], y, buf.job.to));
    ReferFine(s, phase, b, y);
  }

  // ---------------------------------------------------------------- Append

  function Moved(other: Buffer): seq<nat>
    requires Pointers(other) && other.write < |other.chain|
  {
    other.chain[other.read..other.write + 1]
  }

  function Remainder(other: Buffer): seq<nat>
    requires Pointers(other) && other.write < |other.chain|
  {
    other.chain[..other.read] + other.chain[other.write + 1..]
  }

  function JoinPhase(b: nat, buf: Buffer, other: Buffer, phase: map<nat, Phase>): map<nat, Phase>
    requires buf.write < |buf.chain| && Pointers(other) && other.write < |other.chain|
  {
    Restamp(CutPhase(buf, phase), Moved(other), Chain(b))
  }

  /** The two parts of a chain without repetitions. */
  lemma PartsFacts(chain: seq<nat>, r: nat, w: nat)
    requires Distinct(chain) && r <= w <= |chain|
    ensures var moved, rest := chain[r..w], chain[..r] + chain[w..];
            && Distinct(moved) && Distinct(rest)
            && (forall i :: 0 <= i < |rest| ==> rest[i] in chain && rest[i] !in moved)
            && (forall x :: x in chain ==> x in moved || x in rest)
  {
    var moved, rest := chain[r..w], chain[..r] + chain[w..];
    forall i | 0 <= i < |rest| ensures rest[i] == chain[if i < r then i else i - r + w] {}
    forall x | x in chain ensures x in moved || x in rest {
      var k :| 0 <= k < |chain| && chain[k] == x;
      if k < r { assert rest[k] == x; } else if k < w { assert moved[k - r] == x; } else { assert rest[k - w + r] == x; }
    }
  }

  lemma MovedFacts(o: nat, other: Buffer, nodes: Nodes, phase: map<nat, Phase>)
    requires Fine(o, other, nodes, phase) && other.write < |other.chain|
    ensures forall x :: x in Moved(other) ==> x in phase && phase[x] == Chain(o)
    ensures forall i :: 0 <= i < |Remainder(other)| ==> Remainder(other)[i] in phase && phase[Remainder(other)[i]] == Chain(o) && Remainder(other)[i] !in Moved(other)
    ensures forall x :: x in other.chain ==> x in Moved(other) || x in Remainder(other)
    ensures Distinct(Moved(other)) && Distinct(Remainder(other))
  {
    hide InWalk, Distinct, SpareBehind;
    PartsFacts(other.chain, other.read, other.write + 1);
  }

  lemma JoinHanded(s: State, phase: map<nat, Phase>, b: nat, o: nat)
    requires AllFine(s, phase) && Enabled(s, Append(b, o))
    ensures Handed(phase, JoinPhase(b, s.bufs[b], s.bufs[o], phase))
  {
    FineOf(s, phase, b);
    FineOf(s, phase, o);
    CutOffFacts(b, s.bufs[b], s.nodes, phase);
    MovedFacts(o, s.bufs[o], s.nodes, phase);
    hide AllFine, Fine, CutOff, Moved, Remainder, Enabled, Distinct;
  }

  /** The two parts have nothing in common: the one was with `b`, the other with `o`. */
  lemma JoinedFine(b: nat, buf: Buffer, o: nat, other: Buffer, nodes: Nodes, phase: map<nat, Phase>)
    requires Fine(b, buf, nodes, phase) && buf.write < |buf.chain| && Fine(o, other, nodes, phase) && other.write < |other.chain| && b != o
    requires !buf.job.Making?
    ensures Fine(b, Relinked(buf, Moved(other)).(appended := true), nodes, JoinPhase(b, buf, other, phase))
  {
    CutOffFacts(b, buf, nodes, phase);
    MovedFacts(o, other, nodes, phase);
    var phase', more, w := JoinPhase(b, buf, other, phase), Moved(other), buf.write + 1;
    var chain := buf.chain[..w] + more;
    hide CutOff, Remainder, Moved, SpareBehind;
    forall i | 0 <= i < |chain|
      ensures chain[i] in phase && phase'[chain[i]] == Chain(b) && (phase[chain[i]] == if i < w then Chain(b) else Chain(o))
    {
      assert i < w ==> chain[i] == buf.chain[i] && chain[i] in buf.chain[..w];
      assert i >= w ==> chain[i] == more[i - w] && chain[i] in more;
    }
    JoinedDistinct(buf.chain, w, more, chain, phase);
    hide Distinct, Fine, JoinPhase;
    assert InWalk(b, buf.job, nodes, phase') by { JoinWalk(b, buf, o, other, nodes, phase); }
  }

  lemma JoinedDistinct(a: seq<nat>, w: nat, more: seq<nat>, chain: seq<nat>, phase: map<nat, Phase>)
    requires w <= |a| && chain == a[..w] + more && Distinct(a) && Distinct(more)
    requires forall i, j :: 0 <= i < w <= j < |chain| ==> chain[i] != chain[j]
    ensures Distinct(chain)
  {
  }

  lemma JoinWalk(b: nat, buf: Buffer, o: nat, other: Buffer, nodes: Nodes, phase: map<nat, Phase>)
    requires Fine(b, buf, nodes, phase) && buf.write < |buf.chain| && Fine(o, other, nodes, phase) && other.write < |other.chain|
    ensures InWalk(b, buf.job, nodes, JoinPhase(b, buf, other, phase))
  {
    CutOffFacts(b, buf, nodes, phase);
    MovedFacts(o, other, nodes, phase);
    hide Distinct, InChain, CutOff, Moved, Remainder;
  }

  lemma LeftFine(b: nat, buf: Buffer, o: nat, other: Buffer, nodes: Nodes, phase: map<nat, Phase>)
    requires Fine(b, buf, nodes, phase) && buf.write < |buf.chain| && Fine(o, other, nodes, phase) && other.write < |other.chain| && b != o
    ensures Fine(o, Emptying(Remainder(other)), nodes, JoinPhase(b, buf, other, phase))
  {
    CutOffFacts(b, buf, nodes, phase);
    MovedFacts(o, other, nodes, phase);
    hide Distinct, CutOff, Moved, Remainder;
  }

  lemma JoinFine(s: State, phase: map<nat, Phase>, b: nat, o: nat)
    requires AllFine(s, phase) && phase.Keys == s.nodes.Keys && Enabled(s, Append(b, o))
    ensures AllFine(WriterStep(s, Append(b, o)), JoinPhase(b, s.bufs[b], s.bufs[o], phase))
  {
    hide Fine, AllFine, Respects, CutOff, JoinPhase, Elements;
    var buf, other, s' := s.bufs[b], s.bufs[o], WriterStep(s, Append(b, o));
    FineOf(s, phase, b);
    FineOf(s, phase, o);
    JoinedFine(b, buf, o, other, s.nodes, phase);
    LeftFine(b, buf, o, other, s.nodes, phase);
    forall c | c in s.bufs && c != b && c != o
      ensures Respects(c, s.nodes, phase, s'.nodes, JoinPhase(b, buf, other, phase)) && SpareKept(s.bufs[c], s.nodes, s'.nodes)
    {
      JoinApart(c, b, buf, o, other, s.nodes, phase);
    }
    hide SpareKept;
    Assemble(s, phase, s', JoinPhase(b, buf, other, phase), b, o);
  }

  lemma JoinApart(c: nat, b: nat, buf: Buffer, o: nat, other: Buffer, nodes: Nodes, phase: map<nat, Phase>)
    requires Fine(b, buf, nodes, phase) && buf.write < |buf.chain| && Fine(o, other, nodes, phase) && other.write < |other.chain|
    requires phase.Keys == nodes.Keys && c != b && c != o
    ensures Respects(c, nodes, phase, nodes, JoinPhase(b, buf, other, phase))
  {
    hide Respects;
    CutOffFacts(b, buf, nodes, phase);
    MovedFacts(o, other, nodes, phase);
    hide Fine, CutOff, Remainder, Moved;
    StampApart(c, nodes, phase, CutOff(buf), Stray);
    StampApart(c, nodes, CutPhase(buf, phase), Moved(other), Chain(b));
    RespectsOn(c, nodes, phase, nodes, CutPhase(buf, phase), nodes, JoinPhase(b, buf, other, phase));
  }

  lemma JoinLocates(s: State, phase: map<nat, Phase>, b: nat, o: nat, z: nat)
    requires Enabled(s, Append(b, o)) && z in phase && Located(s, z, phase[z])
    requires z in CutOff(s.bufs[b]) ==> Spare(s.nodes, z) && phase[z] == Chain(b)
    requires z in s.bufs[b].chain ==> z in CutOff(s.bufs[b]) || z in s.bufs[b].chain[..s.bufs[b].write + 1]
    requires z in s.bufs[o].chain ==> z in Moved(s.bufs[o]) || z in Remainder(s.bufs[o])
    requires z in Moved(s.bufs[o]) ==> phase[z] == Chain(o)
    ensures Located(WriterStep(s, Append(b, o)), z, JoinPhase(b, s.bufs[b], s.bufs[o], phase)[z])
  {
    hide CutOff, Spare;
  }

  lemma JoinCut(cut: set<nat>, b: nat, buf: Buffer, o: nat, other: Buffer, nodes: Nodes, phase: map<nat, Phase>)
    requires Fine(b, buf, nodes, phase) && buf.write < |buf.chain| && Fine(o, other, nodes, phase) && other.write < |other.chain| && b != o
    requires forall x :: x in cut ==> x in phase && phase[x].Stray?
    ensures forall x :: x in cut + Elements(CutOff(buf)) ==> x in phase && JoinPhase(b, buf, other, phase)[x].Stray?
  {
    CutOffFacts(b, buf, nodes, phase);
    MovedFacts(o, other, nodes, phase);
    hide Fine, CutOff, Moved, Remainder, Distinct;
    CutStays(cut, CutOff(buf), phase);
  }

  lemma JoinLocated(s: State, phase: map<nat, Phase>, b: nat, o: nat)
    requires AllLocated(s, phase) && AllFine(s, phase) && Enabled(s, Append(b, o))
    ensures AllLocated(WriterStep(s, Append(b, o)), JoinPhase(b, s.bufs[b], s.bufs[o], phase))
  {
    FineOf(s, phase, b);
    FineOf(s, phase, o);
    hide AllFine, Fine, CutOff, Distinct, Located, Spare, Elements;
    var buf, other, s' := s.bufs[b], s.bufs[o], WriterStep(s, Append(b, o));
    var phase' := JoinPhase(b, buf, other, phase);
    assert phase'.Keys == phase.Keys;
    CutOffFacts(b, buf, s.nodes, phase);
    MovedFacts(o, other, s.nodes, phase);
    JoinCut(s.cut, b, buf, o, other, s.nodes, phase);
    hide Moved, Remainder, JoinPhase;
    forall z | z in phase ensures Located(s', z, phase'[z]) { JoinLocates(s, phase, b, o, z); }
  }

  lemma AppendKeeps(s: State, phase: map<nat, Phase>, b: nat, o: nat)
    requires Accounts(s, phase) && Enabled(s, Append(b, o))
    ensures Accounts(WriterStep(s, Append(b, o)), JoinPhase(b, s.bufs[b], s.bufs[o], phase))
  {
    hide Balanced, AllFine, AllLocated, JoinPhase, Handed;
    SameNodes(s, phase);
    JoinHanded(s, phase, b, o);
    HandingKeeps(Ledger(s.nodes, phase), JoinPhase(b, s.bufs[b], s.bufs[o], phase));
    JoinFine(s, phase, b, o);
    JoinLocated(s, phase, b, o);
  }

  // ---------------------------------------------------------------- every step, every run

  lemma ExecKeeps(s: State, st: Step)
    requires Inv(s) && Enabled(s, st)
    ensures Inv(Exec(s, st))
  {
    hide Accounts, Enabled, WriterStep, ReaderStep, WalkStep, CutPhase, JoinPhase, DecPhase;
    var phase :| Accounts(s, phase);
    match st
    case Make(b, x, readonly) => MakeKeeps(s, phase, b, x, readonly);
    case Grow(b, x, readonly) => GrowsTo(s, phase, st);
    case Ack(b, to) => AckKeeps(s, phase, b, to);
    case Append(b, o) => GrowsTo(s, phase, st);
    case Mark(b) => MarkKeeps(s, phase, b);
    case Refer(b, y) => WalksTo(s, phase, st);
    case Next(b) => WalksTo(s, phase, st);
    case Dec(b) => WalksTo(s, phase, st);
    case _ => StillKeeps(s, phase, st);
  }

  lemma GrowsTo(s: State, phase: map<nat, Phase>, st: Step)
    requires Accounts(s, phase) && Enabled(s, st) && (st.Grow? || st.Append?)
    ensures Inv(WriterStep(s, st))
  {
    hide Accounts, WriterStep, CutPhase, JoinPhase;
    if st.Grow? { GrowKeeps(s, phase, st.b, st.x, st.readonly); } else { AppendKeeps(s, phase, st.b, st.o); }
  }

  lemma WalksTo(s: State, phase: map<nat, Phase>, st: Step)
    requires Accounts(s, phase) && Enabled(s, st) && (st.Refer? || st.Next? || st.Dec?)
    ensures Inv(Exec(s, st))
  {
    hide Accounts, ReaderStep, WalkStep, DecPhase;
    if st.Refer? { ReferKeeps(s, phase, st.b, st.y); }
    else if st.Next? { NextKeeps(s, phase, st.b); }
    else { DecKeeps(s, phase, st.b); }
  }

  lemma InitInv(s: State)
    requires Init(s)
    ensures Inv(s)
  {
    assert Accounts(s, map[]);
  }

  lemma {:induction false} RunKeeps(run: seq<State>, k: nat)
    requires IsRun(run) && k < |run|
    ensures Inv(run[k])
    decreases k
  {
    hide Inv, Init, Steps;
    if k == 0 {
      InitInv(run[0]);
    } else {
      RunKeeps(run, k - 1);
      assert Steps(run[k - 1], run[(k - 1) + 1]);
      StepsKeep(run[k - 1], run[k]);
    }
  }

  lemma StepsKeep(s: State, s': State)
    requires Inv(s) && Steps(s, s')
    ensures Inv(s')
  {
    hide Inv, Enabled, Exec;
    var st :| Enabled(s, st) && s' == Exec(s, st);
    ExecKeeps(s, st);
  }

  lemma ReachableInv(s: State) returns (phase: map<nat, Phase>)
    requires Reachable(s)
    ensures Accounts(s, phase)
  {
    hide Accounts, Init, Steps;
    var run: seq<State> :| IsRun(run) && s == run[|run| - 1];
    RunKeeps(run, |run| - 1);
    phase :| Accounts(s, phase);
  }

  // ---------------------------------------------------------------- theorems

  /** The node is in the chain of a buffer. */
  ghost predicate Linked(s: State, x: nat)
  {
    exists b :: b in s.bufs && x in s.bufs[b].chain
  }

  /** A walk has called Release on it, and has not come to its own decrement. */
  ghost predicate Releasing(s: State, x: nat)
  {
    exists b :: b in s.bufs && Caller(s.bufs[b].job) == Some(x)
  }

  /** ... but has come back from the call on the origin. */
  ghost predicate OriginLetGo(s: State, x: nat)
  {
    exists b :: b in s.bufs && s.bufs[b].job == Walk([x], true)
  }

  /** The node's own reference has not been dropped. */
  ghost predicate Own(s: State, x: nat)
  {
    Linked(s, x) || x in s.cut || Releasing(s, x)
  }

  /** The windows on `x` that have not let go of it. */
  ghost function LiveWindows(s: State, x: nat): set<nat>
  {
    set y | y in s.nodes && s.nodes[y].origin == Some(x) && Own(s, y) && !OriginLetGo(s, y)
  }

  /** What the phase of a node says about the state. */
  lemma PhaseSays(s: State, phase: map<nat, Phase>, x: nat)
    requires Accounts(s, phase) && x in s.nodes
    ensures x in phase
    ensures Linked(s, x) <==> phase[x].Chain?
    ensures x in s.cut <==> phase[x].Stray?
    ensures Releasing(s, x) <==> phase[x].Leaving? || phase[x].Parted?
    ensures OriginLetGo(s, x) <==> phase[x].Parted?
  {
    hide Balanced, Spare;
    SameNodes(s, phase);
    assert Located(s, x, phase[x]);
    if b :| b in s.bufs && x in s.bufs[b].chain { assert Fine(b, s.bufs[b], s.nodes, phase); }
    if b :| b in s.bufs && Caller(s.bufs[b].job) == Some(x) { assert Fine(b, s.bufs[b], s.nodes, phase); }
    if b :| b in s.bufs && s.bufs[b].job == Walk([x], true) { assert Fine(b, s.bufs[b], s.nodes, phase); }
    if phase[x].Parted? { assert Fine(phase[x].buf, s.bufs[phase[x].buf], s.nodes, phase); }
  }

  lemma WindowsAre(s: State, phase: map<nat, Phase>, x: nat)
    requires Accounts(s, phase)
    ensures LiveWindows(s, x) == Windows(Ledger(s.nodes, phase), x)
  {
    hide Accounts, Linked, Releasing, OriginLetGo;
    forall y | y in s.nodes ensures y in phase && ((Own(s, y) && !OriginLetGo(s, y)) <==> Looks(phase[y])) { PhaseSays(s, phase, y); }
  }

  /** No node is in two chains, or twice in one. */
  lemma ChainsDisjoint(s: State, b: nat, i: nat, c: nat, j: nat)
    requires Reachable(s) && b in s.bufs && c in s.bufs && i < |s.bufs[b].chain| && j < |s.bufs[c].chain|
    requires s.bufs[b].chain[i] == s.bufs[c].chain[j]
    ensures b == c && i == j
  {
    hide Reachable, Balanced, AllLocated;
    var phase := ReachableInv(s);
    assert Fine(b, s.bufs[b], s.nodes, phase) && Fine(c, s.bufs[c], s.nodes, phase);
  }

  /** A node's count is its own reference, as long as it is in a chain, cut off, or being released, and its
      live windows. */
  lemma ReferIsHolders(s: State, x: nat)
    requires Reachable(s) && x in s.nodes
    ensures s.nodes[x].refer == (if Own(s, x) then 1 else 0) + |LiveWindows(s, x)|
  {
    hide Reachable, Accounts, LiveWindows, Linked, Releasing;
    var phase := ReachableInv(s);
    PhaseSays(s, phase, x);
    WindowsAre(s, phase, x);
    BalancedOf(s, phase);
    NodeCounts.ReferIsHolders(Ledger(s.nodes, phase), x);
  }

  lemma BalancedOf(s: State, phase: map<nat, Phase>)
    requires Accounts(s, phase)
    ensures Balanced(Ledger(s.nodes, phase))
  {
  }

  /** A node is given back by one walk only, once, and then is in no chain any more. */
  lemma LeavesOnce(s: State, x: nat)
    requires Reachable(s) && x in s.nodes
    ensures s.nodes[x].released <= 1
    ensures s.nodes[x].released == 0 <==> Linked(s, x) || x in s.cut
  {
    hide Reachable, Accounts, Linked, Holders;
    var phase := ReachableInv(s);
    PhaseSays(s, phase, x);
    BalancedOf(s, phase);
    assert Shaped(Ledger(s.nodes, phase), x);
  }

  /** Windows hang on roots only, however often a slice was sliced, so calls of Release nest at most twice. */
  lemma DepthAtMostOne(s: State, x: nat)
    requires Reachable(s) && x in s.nodes && s.nodes[x].origin.Some?
    ensures s.nodes[x].origin.value in s.nodes && s.nodes[s.nodes[x].origin.value].origin.None?
    ensures forall b :: b in s.bufs && s.bufs[b].job.Walk? ==> |s.bufs[b].job.calls| <= 2
  {
    hide Reachable, Holders;
    var phase := ReachableInv(s);
    assert Shaped(Ledger(s.nodes, phase), x);
    hide Balanced, AllLocated;
    forall b | b in s.bufs && s.bufs[b].job.Walk? ensures |s.bufs[b].job.calls| <= 2 { assert Fine(b, s.bufs[b], s.nodes, phase); }
  }

  /** Memory goes back at most once: exactly when the last reference is dropped, and never from a
      read-only node or one that was read without copying. */
  lemma FreedOnce(s: State, x: nat)
    requires Reachable(s) && x in s.nodes
    ensures s.nodes[x].frees <= 1
    ensures s.nodes[x].recycled <==> !Own(s, x) && LiveWindows(s, x) == {}
    ensures s.nodes[x].frees == 1 <==> s.nodes[x].recycled && !s.nodes[x].readonly && !s.nodes[x].nocopy
  {
    hide Reachable, Accounts, LiveWindows, Own, Holders;
    ReferIsHolders(s, x);
    var phase := ReachableInv(s);
    BalancedOf(s, phase);
    assert Shaped(Ledger(s.nodes, phase), x);
  }

  /** A node in a chain is not recycled, and if it is a window neither is the memory it looks at. */
  lemma LinkedIsAlive(s: State, x: nat)
    requires Reachable(s) && x in s.nodes && Linked(s, x)
    ensures !s.nodes[x].recycled && s.nodes[x].frees == 0
    ensures s.nodes[x].origin.Some? ==> var r := s.nodes[x].origin.value; r in s.nodes && !s.nodes[r].recycled && s.nodes[r].frees == 0
  {
    hide Reachable, Linked, OriginLetGo, Releasing, Accounts;
    FreedOnce(s, x);
    if s.nodes[x].origin.Some? {
      DepthAtMostOne(s, x);
      FreedOnce(s, s.nodes[x].origin.value);
      var phase := ReachableInv(s);
      PhaseSays(s, phase, x);
      assert x in LiveWindows(s, s.nodes[x].origin.value);
    }
  }

  /** A node that was cut off is a root nobody looks at: its memory is lost to the allocator and to nobody
      else. */
  lemma CutIsSpare(s: State, x: nat)
    requires Reachable(s) && x in s.cut
    ensures x in s.nodes && !Linked(s, x) && s.nodes[x].refer == 1 && s.nodes[x].origin.None? && LiveWindows(s, x) == {}
  {
    hide Reachable, LiveWindows, Linked, Releasing;
    var phase := ReachableInv(s);
    assert Located(s, x, phase[x]);
    hide AllLocated, AllFine, Located;
    PhaseSays(s, phase, x);
    hide Accounts;
    ReferIsHolders(s, x);
  }

  // ---------------------------------------------------------------- walks come to an end

  /** What a walk has left to do. */
  function Work(buf: Buffer): nat
  {
    if !buf.job.Walk? then 0
    else 4 * buf.read + (match |buf.job.calls| case 0 => 1 case 1 => if buf.job.back then 2 else 4 case _ => 3)
  }

  /** A walk can always go on, and every decrement hits a positive count. */
  lemma WalkGoesOn(s: State, b: nat)
    requires Reachable(s) && b in s.bufs && s.bufs[b].job.Walk?
    ensures Enabled(s, Next(b)) || Enabled(s, Call(b)) || Enabled(s, Dec(b)) || Enabled(s, Stop(b))
    ensures Enabled(s, Dec(b)) ==> 0 < s.nodes[Top(s.bufs[b].job.calls)].refer
  {
    hide Reachable, Accounts, AllFine, AllLocated;
    var phase := ReachableInv(s);
    BalancedOf(s, phase);
    FinesOf(s, phase);
    FineOf(s, phase, b);
    WalkOf(b, s.bufs[b], s.nodes, phase);
    SameNodes(s, phase);
    hide Balanced;
    PointersOf(b, s.bufs[b], s.nodes, phase);
    hide Fine, InWalk, Top, Enabled;
    if s.bufs[b].job.calls != [] {
      InCall(s.bufs[b].job, b, s.nodes, phase);
      CallGoesOn(s, b);
    } else {
      if 0 < s.bufs[b].read { FirstIs(b, s.bufs[b], s.nodes, phase); }
      TakeGoesOn(s, b);
    }
  }

  lemma CallGoesOn(s: State, b: nat)
    requires b in s.bufs && Pointers(s.bufs[b]) && s.bufs[b].job.Walk? && s.bufs[b].job.calls != [] && Top(s.bufs[b].job.calls) in s.nodes
    ensures Enabled(s, Dec(b)) <==> CanDec(s.bufs[b].job, s.nodes)
    ensures Enabled(s, Call(b)) <==> !s.bufs[b].job.back && s.nodes[Top(s.bufs[b].job.calls)].origin.Some?
  {
  }

  lemma TakeGoesOn(s: State, b: nat)
    requires b in s.bufs && Pointers(s.bufs[b]) && s.bufs[b].job.Walk? && s.bufs[b].job.calls == []
    ensures !Enabled(s, Dec(b))
    ensures if s.bufs[b].read == 0 then Enabled(s, Stop(b)) else s.bufs[b].chain[0] in s.nodes ==> Enabled(s, Next(b))
  {
  }

  lemma FinesOf(s: State, phase: map<nat, Phase>)
    requires Accounts(s, phase)
    ensures AllFine(s, phase)
  {
  }

  lemma PointersOf(b: nat, buf: Buffer, nodes: Nodes, phase: map<nat, Phase>)
    requires Fine(b, buf, nodes, phase)
    ensures Pointers(buf)
  {
  }

  /** Inside a call there is something to call or to decrement. */
  lemma InCall(j: Job, b: nat, nodes: Nodes, phase: map<nat, Phase>)
    requires Balanced(Ledger(nodes, phase)) && InWalk(b, j, nodes, phase) && j.Walk? && j.calls != []
    ensures Top(j.calls) in nodes && (CanDec(j, nodes) || (!j.back && nodes[Top(j.calls)].origin.Some?))
    ensures CanDec(j, nodes) ==> 0 < nodes[Top(j.calls)].refer
  {
    hide Balanced;
    CallsIn(Ledger(nodes, phase), j.calls);
    if CanDec(j, nodes) { DecFacts(b, j, nodes, phase); }
  }

  /** Each step of a walk leaves less to do. */
  lemma WalkComesToEnd(s: State, st: Step)
    requires Reachable(s) && Enabled(s, st) && ByWalk(st)
    ensures st.b in Exec(s, st).bufs && Work(Exec(s, st).bufs[st.b]) < Work(s.bufs[st.b])
  {
    hide Reachable, Exec, Work;
    var phase := ReachableInv(s);
    BalancedOf(s, phase);
    FineOf(s, phase, st.b);
    hide Accounts, Fine, Balanced;
    StepLess(s, phase, st);
  }

  lemma CallsIn(h: Ledger, calls: seq<nat>)
    requires Balanced(h) && 1 <= |calls| <= 2 && calls[0] in h.nodes && (|calls| == 2 ==> h.nodes[calls[0]].origin == Some(calls[1]))
    ensures Top(calls) in h.nodes && (|calls| == 2 ==> h.nodes[calls[1]].origin.None?)
  {
    assert Shaped(h, calls[0]);
  }

  lemma StepLess(s: State, phase: map<nat, Phase>, st: Step)
    requires Enabled(s, st) && ByWalk(st) && Fine(st.b, s.bufs[st.b], s.nodes, phase) && Balanced(Ledger(s.nodes, phase))
    ensures st.b in Exec(s, st).bufs && Work(Exec(s, st).bufs[st.b]) < Work(s.bufs[st.b])
  {
    hide InChain, Distinct, SpareBehind, Balanced;
    if st.Call? && |s.bufs[st.b].job.calls| == 2 { CallsIn(Ledger(s.nodes, phase), s.bufs[st.b].job.calls); }
  }

  /** Everything is on its way back. */
  predicate Closing(buf: Buffer)
  {
    buf.job.Walk? && buf.read == buf.flush == buf.write == |buf.chain|
  }

  /** Everything is back. */
  predicate Shut(buf: Buffer)
  {
    buf.chain == [] && buf.read == buf.flush == buf.write == 0 && !buf.job.Making?
  }

  /** The buffer that a step starts to give back as a whole. */
  predicate Closes(st: Step, b: nat)
  {
    (st.Close? && st.b == b) || (st.Append? && st.o == b)
  }

  lemma CloseStarts(s: State, st: Step, b: nat)
    requires Enabled(s, st) && Closes(st, b)
    ensures b in Exec(s, st).bufs && Closing(Exec(s, st).bufs[b])
  {
  }

  /** Nobody else adds to or takes from such a chain, and the walk stops when nothing is left. */
  lemma ClosingEmpties(s: State, st: Step, b: nat)
    requires Enabled(s, st) && b in s.bufs && (Closing(s.bufs[b]) || Shut(s.bufs[b]))
    ensures b in Exec(s, st).bufs
    ensures var buf, buf' := s.bufs[b], Exec(s, st).bufs[b];
            && (Closing(buf') || Shut(buf'))
            && (buf'.chain == buf.chain || (buf.chain != [] && st == Next(b) && buf'.chain == buf.chain[1..]))
  {
    if ByWriter(st) {
      hide ReaderStep, WalkStep;
      if st.b != b { ClosingLeftAlone(s, st, b); }
    } else if ByWalk(st) {
      hide ReaderStep, WriterStep;
    } else {
      hide WalkStep, WriterStep;
    }
  }

  lemma ClosingLeftAlone(s: State, st: Step, b: nat)
    requires Enabled(s, st) && b in s.bufs && (Closing(s.bufs[b]) || Shut(s.bufs[b])) && ByWriter(st) && st.b != b
    ensures b in WriterStep(s, st).bufs && WriterStep(s, st).bufs[b] == s.bufs[b]
  {
  }

  lemma ReleasedGrows(s: State, st: Step, x: nat)
    requires Enabled(s, st) && x in s.nodes
    ensures x in Exec(s, st).nodes && s.nodes[x].released <= Exec(s, st).nodes[x].released
    ensures st.Next? && s.bufs[st.b].chain[0] == x ==> 0 < Exec(s, st).nodes[x].released
  {
    if ByWriter(st) { hide ReaderStep, WalkStep; } else if ByWalk(st) { hide ReaderStep, WriterStep; } else { hide WalkStep, WriterStep; }
  }

  /** The nodes in `xs` are still in the chain of `b`, which is being given back, or have been released. */
  ghost predicate GivingBack(s: State, b: nat, xs: seq<nat>)
  {
    && b in s.bufs && (Closing(s.bufs[b]) || Shut(s.bufs[b]))
    && forall x :: x in xs ==> x in s.nodes && (x in s.bufs[b].chain || 0 < s.nodes[x].released)
  }

  lemma StepGivesBack(s: State, s': State, b: nat, xs: seq<nat>)
    requires GivingBack(s, b, xs) && Steps(s, s')
    ensures GivingBack(s', b, xs)
  {
    hide Enabled, Exec, Closing, Shut;
    var st :| Enabled(s, st) && s' == Exec(s, st);
    ClosingEmpties(s, st, b);
    forall x | x in xs ensures x in s'.nodes && (x in s'.bufs[b].chain || 0 < s'.nodes[x].released) {
      ReleasedGrows(s, st, x);
      if x in s.bufs[b].chain && x !in s'.bufs[b].chain { GoneIsFirst(s.bufs[b].chain, x); }
    }
  }

  lemma GoneIsFirst(chain: seq<nat>, x: nat)
    requires chain != [] && x in chain && x !in chain[1..]
    ensures x == chain[0]
  {
    assert forall i :: 1 <= i < |chain| ==> chain[i] == chain[1..][i - 1];
  }

  lemma InNodes(s: State, b: nat)
    requires Inv(s) && b in s.bufs
    ensures forall x :: x in s.bufs[b].chain ==> x in s.nodes
  {
    hide Balanced;
    var phase :| Accounts(s, phase);
    SameNodes(s, phase);
    assert Fine(b, s.bufs[b], s.nodes, phase);
  }

  lemma {:induction false} GivesBackOn(run: seq<State>, k: nat, n: nat, st: Step, b: nat)
    requires IsRun(run) && k < n < |run| && Enabled(run[k], st) && run[k + 1] == Exec(run[k], st) && Closes(st, b)
    ensures b in run[k + 1].bufs && GivingBack(run[n], b, run[k + 1].bufs[b].chain)
    decreases n
  {
    hide Inv, Init, Steps, Enabled, Exec, Closes, Closing, Shut;
    CloseStarts(run[k], st, b);
    if n == k + 1 {
      RunKeeps(run, n);
      InNodes(run[n], b);
    } else {
      hide GivingBack;
      GivesBackOn(run, k, n - 1, st, b);
      assert Steps(run[n - 1], run[(n - 1) + 1]);
      StepGivesBack(run[n - 1], run[n], b, run[k + 1].bufs[b].chain);
    }
  }

  /** From Close, or from Append for the appended buffer, on: every node the buffer has to give back is still
      in its chain or has been released exactly once, and nothing comes to the chain any more; at the end,
      when the chain is empty, all have been released. */
  lemma CloseGivesAllBack(run: seq<State>, k: nat, n: nat, st: Step, b: nat, x: nat)
    requires IsRun(run) && k < n < |run| && Enabled(run[k], st) && run[k + 1] == Exec(run[k], st) && Closes(st, b)
    requires b in run[k + 1].bufs && x in run[k + 1].bufs[b].chain
    ensures b in run[n].bufs && x in run[n].nodes && (x in run[n].bufs[b].chain <==> run[n].nodes[x].released == 0)
    ensures run[n].nodes[x].released <= 1
    ensures !run[n].bufs[b].job.Walk? ==> run[n].bufs[b].chain == [] && run[n].nodes[x].released == 1
  {
    hide Init, Steps, Enabled, Exec, Closes, Linked;
    GivesBackOn(run, k, n, st, b);
    assert Reachable(run[n]) by { Prefix(run, n); }
    LeavesOnce(run[n], x);
    assert x in run[n].bufs[b].chain ==> Linked(run[n], x) by { LinkedHere(run[n], b, x); }
  }

  lemma LinkedHere(s: State, b: nat, x: nat)
    requires b in s.bufs
    ensures x in s.bufs[b].chain ==> Linked(s, x)
  {
  }

  lemma Prefix(run: seq<State>, n: nat)
    requires IsRun(run) && n < |run|
    ensures Reachable(run[n])
  {
    hide Init, Steps;
    assert IsRun(run[..n + 1]) && run[n] == run[..n + 1][|run[..n + 1]| - 1];
  }
}
