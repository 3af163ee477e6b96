/** The six phases of `test_arbiter_wrr_lock`, driving one 4-client,
    4-bit-weight arbiter through the input traces the testbench applies and
    collecting the decoded grant indices it asserts on.

    Sampling: a read of `o_gnt` made directly after waiting for a rising edge
    returns the registers as they were before that edge (the edge's
    updates are not yet visible); a read made after the short settle
    delay returns the registers as the edge left them. */
module TestPhases {
  import opened Bits
  import opened GrantDecode
  import opened WeightPacking
  import opened WrrArbiter
  import opened ArbiterProperties

  const NumClients: nat := 4
  const WeightWidth: nat := 4
  const Setup: Config := Config(NumClients, WeightWidth)

  ghost predicate Bench(dut: Arbiter)
    reads dut
  {
    dut.Valid() && dut.cfg == Setup
  }

  // ---------------------------------------------------------------------
  // Observations
  // ---------------------------------------------------------------------

  /** The decoded grant index the testbench reads in state s. */
  function Observe(s: ArbState): int
  {
    if s.active then s.owner else -1
  }

  /** The indices read at k edges with fixed inputs, each read made directly
      after its edge and so seeing the registers that edge found. */
  function Trace(cfg: Config, s: ArbState, req: nat, lock: nat, weight: nat, k: nat): (t: seq<int>)
    requires cfg.numClients >= 1
    ensures |t| == k
    ensures forall i :: 0 <= i < k ==> t[i] == Observe(Run(cfg, s, req, lock, weight, i))
  {
    if k == 0 then [] else Trace(cfg, s, req, lock, weight, k - 1) + [Observe(Run(cfg, s, req, lock, weight, k - 1))]
  }

  // ---------------------------------------------------------------------
  // Testbench actions
  // ---------------------------------------------------------------------

  /** `reset_dut`: reset asserted with every input 0, then released; the
      edge that ends it sees no request and leaves the reset state as it is. */
  method ResetDut(dut: Arbiter)
    requires dut.Valid()
    modifies dut
    ensures dut.Valid() && dut.State() == ResetState(dut.cfg)
  {
    dut.Reset();
    NoRequestInZero(dut.cfg.numClients);
    IdleKeepsPointer(dut.cfg, dut.State(), 0, 0, 0, 1);
    dut.Step(0, 0, 0);
  }

  /** A rising edge of `clk` followed at once by a decode of `o_gnt`: the
      read sees the owner as it was before the edge. */
  method EdgeThenRead(dut: Arbiter, req: nat, lock: nat, weight: nat) returns (g: int)
    requires dut.Valid()
    modifies dut
    ensures dut.Valid() && g == Observe(old(dut.State()))
    ensures dut.State() == Next(dut.cfg, old(dut.State()), req, lock, weight)
  {
    var v := dut.Grant();
    g := GetGrantIndex(v, dut.cfg.numClients);
    dut.Step(req, lock, weight);
  }

  /** A rising edge of `clk`, the 1 ns settle delay, then a decode of
      `o_gnt`: the read sees the owner the edge chose. */
  method EdgeSettleRead(dut: Arbiter, req: nat, lock: nat, weight: nat) returns (g: int)
    requires dut.Valid()
    modifies dut
    ensures dut.Valid() && g == Observe(dut.State())
    ensures dut.State() == Next(dut.cfg, old(dut.State()), req, lock, weight)
  {
    dut.Step(req, lock, weight);
    var v := dut.Grant();
    g := GetGrantIndex(v, dut.cfg.numClients);
  }

  /** k edges with fixed inputs and no read. */
  method Edges(dut: Arbiter, req: nat, lock: nat, weight: nat, k: nat)
    requires dut.Valid()
    modifies dut
    ensures dut.Valid() && dut.State() == Run(dut.cfg, old(dut.State()), req, lock, weight, k)
  {
    var i := 0;
    while i < k
      invariant 0 <= i <= k && dut.Valid()
      invariant dut.State() == Run(dut.cfg, old(dut.State()), req, lock, weight, i)
    {
      dut.Step(req, lock, weight);
      i := i + 1;
    }
  }

  /** k edges with fixed inputs, each followed at once by a read. */
  method EdgesThenRead(dut: Arbiter, req: nat, lock: nat, weight: nat, k: nat) returns (obs: seq<int>)
    requires dut.Valid()
    modifies dut
    ensures dut.Valid() && obs == Trace(dut.cfg, old(dut.State()), req, lock, weight, k)
    ensures dut.State() == Run(dut.cfg, old(dut.State()), req, lock, weight, k)
  {
    obs := [];
    var i := 0;
    while i < k
      invariant 0 <= i <= k && dut.Valid()
      invariant obs == Trace(dut.cfg, old(dut.State()), req, lock, weight, i)
      invariant dut.State() == Run(dut.cfg, old(dut.State()), req, lock, weight, i)
    {
      var g := EdgeThenRead(dut, req, lock, weight);
      obs := obs + [g];
      i := i + 1;
    }
  }

  /** k edges with fixed inputs, each followed by the settle delay and a
      read: the reads are the trace of the state after the first edge. */
  method EdgesSettleRead(dut: Arbiter, req: nat, lock: nat, weight: nat, k: nat) returns (obs: seq<int>)
    requires dut.Valid()
    modifies dut
    ensures dut.Valid() && obs == Trace(dut.cfg, Next(dut.cfg, old(dut.State()), req, lock, weight), req, lock, weight, k)
    ensures dut.State() == Run(dut.cfg, old(dut.State()), req, lock, weight, k)
  {
    ghost var first := Next(dut.cfg, dut.State(), req, lock, weight);
    obs := [];
    var i := 0;
    while i < k
      invariant 0 <= i <= k && dut.Valid()
      invariant first == Next(dut.cfg, old(dut.State()), req, lock, weight)
      invariant obs == Trace(dut.cfg, first, req, lock, weight, i)
      invariant dut.State() == Run(dut.cfg, old(dut.State()), req, lock, weight, i)
    {
      var g := EdgeSettleRead(dut, req, lock, weight);
      RunAppend(dut.cfg, old(dut.State()), req, lock, weight, 1, i);
      obs := obs + [g];
      i := i + 1;
    }
  }

  // ---------------------------------------------------------------------
  // The phases
  // ---------------------------------------------------------------------

  /** Phase 1, basic rotation, straight after the test's first reset: all
      weights 0 and all four clients requesting give grants 0, 1, 2, 3, 0. */
  method Phase1BasicRotation(dut: Arbiter) returns (observed: seq<int>)
    requires Bench(dut) && dut.State() == ResetState(Setup)
    modifies dut
    ensures Bench(dut) && observed == [0, 1, 2, 3, 0]
  {
    var weight := PackWeights([0, 0, 0, 0], WeightWidth);
    Phase1Trace(weight);
    dut.Step(0xF, 0, weight);
    observed := EdgesThenRead(dut, 0xF, 0, weight, 5);
    dut.Step(0xF, 0, weight);
  }

  /** Phase 2, weighted fairness: weights [1, 3, 0, 0] give client 0 two
      cycles, client 1 four, then client 2. */
  method Phase2WeightedFairness(dut: Arbiter) returns (observed: seq<int>)
    requires Bench(dut)
    modifies dut
    ensures Bench(dut) && observed == [0, 0, 1, 1, 1, 1, 2]
  {
    ResetDut(dut);
    var weight := PackWeights([1, 3, 0, 0], WeightWidth);
    Phase2Trace(weight);
    dut.Step(0xF, 0, weight);
    observed := EdgesThenRead(dut, 0xF, 0, weight, 7);
  }

  /** Phase 3, work conservation: client 0 with weight 15 drops its request
      and client 1 is granted on that very edge. */
  method Phase3WorkConservation(dut: Arbiter) returns (observed: seq<int>)
    requires Bench(dut)
    modifies dut
    ensures Bench(dut) && observed == [0, 1]
  {
    ResetDut(dut);
    var weight := PackWeights([15, 0, 0, 0], WeightWidth);
    Phase3Edges(weight);
    dut.Step(0x3, 0, weight);
    var before := EdgeThenRead(dut, 0x3, 0, weight);
    var after := EdgeSettleRead(dut, 0x2, 0, weight);
    observed := [before, after];
  }

  /** Phase 4, atomic lock: with weight 0, client 0 holding its lock keeps
      the grant for ten edges and loses it on the edge the lock is released. */
  method Phase4AtomicLock(dut: Arbiter) returns (observed: seq<int>)
    requires Bench(dut)
    modifies dut
    ensures Bench(dut) && |observed| == 12 && observed[11] == 1
    ensures forall i :: 0 <= i < 11 ==> observed[i] == 0
  {
    ResetDut(dut);
    var weight := 0;
    Phase4Edges(weight);
    dut.Step(0x3, 0, weight);
    var start := EdgeThenRead(dut, 0x3, 0, weight);
    var held := Phase4Hold(dut, weight);
    var released := EdgeSettleRead(dut, 0x3, 0, weight);
    observed := [start] + held + [released];
    Bracketed(start, held, released);
  }

  /** Reads 0, then a stretch of 0s, then 1. */
  lemma Bracketed(start: int, held: seq<int>, released: int)
    requires start == 0 && released == 1 && forall i :: 0 <= i < |held| ==> held[i] == 0
    ensures var s := [start] + held + [released];
            s[|held| + 1] == 1 && forall i :: 0 <= i <= |held| ==> s[i] == 0
  {
  }

  /** The ten locked edges of phase 4, each read after the settle delay. */
  method Phase4Hold(dut: Arbiter, weight: nat) returns (held: seq<int>)
    requires Bench(dut) && weight == 0 && dut.State() == ArbState(true, 1, 0)
    modifies dut
    ensures Bench(dut) && dut.State() == ArbState(true, 0, 0)
    ensures |held| == 10 && forall i :: 0 <= i < 10 ==> held[i] == 0
  {
    Phase4Edges(weight);
    Phase4Locked(weight);
    held := EdgesSettleRead(dut, 0x3, 0x1, weight, 10);
  }

  /** Phase 5, illegal lock: client 1 raising its lock while client 0 owns
      the grant with credit left changes nothing; client 0 keeps it. */
  method Phase5IllegalLock(dut: Arbiter) returns (observed: seq<int>)
    requires Bench(dut)
    modifies dut
    ensures Bench(dut) && observed == [0, 0]
    ensures dut.State() == ArbState(true, 0, 3)
  {
    ResetDut(dut);
    var weight := PackWeights([5, 0, 0, 0], WeightWidth);
    Phase5Edges(weight);
    dut.Step(0x3, 0, weight);
    var start := EdgeThenRead(dut, 0x3, 0, weight);
    var stolen := EdgeThenRead(dut, 0x3, 0x2, weight);
    observed := [start, stolen];
  }

  /** Phase 6, lock to switch: client 0 with weight 1 locks for five edges,
      and on the edge that releases the lock client 1 is granted. */
  method Phase6LockToSwitch(dut: Arbiter) returns (observed: seq<int>)
    requires Bench(dut)
    modifies dut
    ensures Bench(dut) && observed == [1]
  {
    ResetDut(dut);
    var weight := PackWeights([1, 0, 0, 0], WeightWidth);
    Phase6Edges(weight);
    Edges(dut, 0x3, 0, weight, 2);
    Edges(dut, 0x3, 0x1, weight, 5);
    var released := EdgeSettleRead(dut, 0x3, 0, weight);
    observed := [released];
  }

  /** `test_arbiter_wrr_lock`: one elaborated arbiter driven through the six
      phases; every sequence of reads is the one the testbench asserts. */
  method TestArbiterWrrLock() returns (p1: seq<int>, p2: seq<int>, p3: seq<int>, p4: seq<int>, p5: seq<int>, p6: seq<int>)
    ensures p1 == [0, 1, 2, 3, 0]
    ensures p2 == [0, 0, 1, 1, 1, 1, 2]
    ensures p3 == [0, 1]
    ensures |p4| == 12 && p4[11] == 1 && forall i :: 0 <= i < 11 ==> p4[i] == 0
    ensures p5 == [0, 0]
    ensures p6 == [1]
  {
    var dut := new Arbiter(NumClients, WeightWidth);
    ResetDut(dut);
    p1 := Phase1BasicRotation(dut);
    p2 := Phase2WeightedFairness(dut);
    p3 := Phase3WorkConservation(dut);
    p4 := Phase4AtomicLock(dut);
    p5 := Phase5IllegalLock(dut);
    p6 := Phase6LockToSwitch(dut);
  }

  // ---------------------------------------------------------------------
  // The edges of each phase
  // ---------------------------------------------------------------------

  /** The fields of a packed four-entry weight table, as the arbiter reads them. */
  lemma FourWeights(w0: nat, w1: nat, w2: nat, w3: nat)
    ensures var weight := Packed([w0, w1, w2, w3], WeightWidth);
            WeightOf(Setup, weight, 0) == w0 % 16 && WeightOf(Setup, weight, 1) == w1 % 16 &&
            WeightOf(Setup, weight, 2) == w2 % 16 && WeightOf(Setup, weight, 3) == w3 % 16
  {
    var ws := [w0, w1, w2, w3];
    assert Pow2(WeightWidth) == 16;
    PackedField(ws, WeightWidth, 0);
    PackedField(ws, WeightWidth, 1);
    PackedField(ws, WeightWidth, 2);
    PackedField(ws, WeightWidth, 3);
  }

  /** Every client's bit is set in 0xF. */
  lemma AllFourRequest()
    ensures forall c: nat :: c < NumClients ==> Requests(0xF, c)
  {
    forall c: nat | c < NumClients
      ensures Requests(0xF, c)
    {
      assert c == 0 || c == 1 || c == 2 || c == 3;
    }
  }

  /** Phase 1: the first edge grants client 0, and the next five reads see
      the grant rotate once round and back to client 0. */
  lemma Phase1Trace(weight: nat)
    requires weight == Packed([0, 0, 0, 0], WeightWidth)
    ensures Next(Setup, ResetState(Setup), 0xF, 0, weight) == ArbState(true, 0, 0)
    ensures Trace(Setup, ArbState(true, 0, 0), 0xF, 0, weight, 5) == [0, 1, 2, 3, 0]
  {
    FourWeights(0, 0, 0, 0);
    forall c: nat | c < NumClients
      ensures WeightOf(Setup, weight, c) == 0
    {
      assert c == 0 || c == 1 || c == 2 || c == 3;
    }
    AllFourRequest();
    RoundRobinStep(Setup, ResetState(Setup), 0xF, weight);
    var s := ArbState(true, 0, 0);
    var t := Trace(Setup, s, 0xF, 0, weight, 5);
    forall i | 1 <= i < 5
      ensures t[i] == i % 4
    {
      RoundRobinRun(Setup, s, 0xF, weight, i);
    }
    assert t[0] == 0 && t[1] == 1 && t[2] == 2 && t[3] == 3 && t[4] == 0;
  }

  /** Phase 2: the first edge grants client 0 with credit 1; the next seven
      reads see client 0 twice, client 1 four times, then client 2. */
  lemma Phase2Trace(weight: nat)
    requires weight == Packed([1, 3, 0, 0], WeightWidth)
    ensures Next(Setup, ResetState(Setup), 0xF, 0, weight) == ArbState(true, 0, 1)
    ensures Trace(Setup, ArbState(true, 0, 1), 0xF, 0, weight, 7) == [0, 0, 1, 1, 1, 1, 2]
  {
    FourWeights(1, 3, 0, 0);
    AllFourRequest();
    var s := ArbState(true, 0, 1);
    assert Run(Setup, s, 0xF, 0, weight, 1) == ArbState(true, 0, 0);
    assert Run(Setup, s, 0xF, 0, weight, 2) == ArbState(true, 1, 3);
    assert Run(Setup, s, 0xF, 0, weight, 3) == ArbState(true, 1, 2);
    assert Run(Setup, s, 0xF, 0, weight, 4) == ArbState(true, 1, 1);
    assert Run(Setup, s, 0xF, 0, weight, 5) == ArbState(true, 1, 0);
    assert Run(Setup, s, 0xF, 0, weight, 6) == ArbState(true, 2, 0);
    var tr := Trace(Setup, s, 0xF, 0, weight, 7);
    assert tr[0] == 0 && tr[1] == 0 && tr[2] == 1 && tr[3] == 1 && tr[4] == 1 && tr[5] == 1 && tr[6] == 2;
  }

  /** Phase 3: client 0 is granted with its full credit of 15 and still owns
      after the second edge; on the edge that sees its request drop, client 1
      is granted. */
  lemma Phase3Edges(weight: nat)
    requires weight == Packed([15, 0, 0, 0], WeightWidth)
    ensures Next(Setup, ResetState(Setup), 0x3, 0, weight) == ArbState(true, 0, 15)
    ensures Next(Setup, ArbState(true, 0, 15), 0x3, 0, weight) == ArbState(true, 0, 14)
    ensures Next(Setup, ArbState(true, 0, 14), 0x2, 0, weight) == ArbState(true, 1, 0)
  {
    FourWeights(15, 0, 0, 0);
    assert Requests(0x3, 0);
    assert !Requests(0x2, 0) && Requests(0x2, 1);
  }

  /** Phase 4 with the all-zero weight vector: client 0 is granted without
      credit, the second (still unlocked) edge passes the grant to client 1,
      and the first locked edge hands it back to client 0, since client 1
      neither locks nor has credit. */
  lemma Phase4Edges(weight: nat)
    requires weight == 0
    ensures Next(Setup, ResetState(Setup), 0x3, 0, weight) == ArbState(true, 0, 0)
    ensures Next(Setup, ArbState(true, 0, 0), 0x3, 0, weight) == ArbState(true, 1, 0)
    ensures Next(Setup, ArbState(true, 1, 0), 0x3, 0x1, weight) == ArbState(true, 0, 0)
  {
    forall c: nat | c < NumClients
      ensures WeightOf(Setup, weight, c) == 0
    {
      ShrZero(c * WeightWidth);
    }
    assert Requests(0x3, 0) && Requests(0x3, 1) && !Requests(0x3, 2) && !Requests(0x3, 3);
    assert Locks(0x1, 0) && !Locks(0x1, 1) && !Locks(0, 0);
  }

  /** Phase 4, the locked stretch: from client 1's credit-less grant, ten
      locked edges leave client 0 holding the grant, and every read after
      them sees client 0. */
  lemma Phase4Locked(weight: nat)
    requires weight == 0
    ensures forall i :: 0 <= i < 10 ==> Trace(Setup, ArbState(true, 0, 0), 0x3, 0x1, weight, 10)[i] == 0
    ensures Run(Setup, ArbState(true, 1, 0), 0x3, 0x1, weight, 10) == ArbState(true, 0, 0)
  {
    var z := ArbState(true, 0, 0);
    Phase4Edges(weight);
    assert Requests(0x3, 0) && Locks(0x1, 0);
    LockedHold(Setup, z, 0x3, 0x1, weight, 1);
    LockedHold(Setup, z, 0x3, 0x1, weight, 2);
    LockedHold(Setup, z, 0x3, 0x1, weight, 3);
    LockedHold(Setup, z, 0x3, 0x1, weight, 4);
    LockedHold(Setup, z, 0x3, 0x1, weight, 5);
    LockedHold(Setup, z, 0x3, 0x1, weight, 6);
    LockedHold(Setup, z, 0x3, 0x1, weight, 7);
    LockedHold(Setup, z, 0x3, 0x1, weight, 8);
    LockedHold(Setup, z, 0x3, 0x1, weight, 9);
    RunAppend(Setup, ArbState(true, 1, 0), 0x3, 0x1, weight, 1, 9);
  }

  /** Phase 5: client 0 is granted with credit 5 and keeps it across the
      edge where only client 1's lock bit is set, its credit running down. */
  lemma Phase5Edges(weight: nat)
    requires weight == Packed([5, 0, 0, 0], WeightWidth)
    ensures Next(Setup, ResetState(Setup), 0x3, 0, weight) == ArbState(true, 0, 5)
    ensures Next(Setup, ArbState(true, 0, 5), 0x3, 0, weight) == ArbState(true, 0, 4)
    ensures Next(Setup, ArbState(true, 0, 4), 0x3, 0x2, weight) == ArbState(true, 0, 3)
  {
    FourWeights(5, 0, 0, 0);
    assert Requests(0x3, 0);
  }

  /** Phase 6: after two unlocked edges client 0 has spent its credit of 1;
      five locked edges keep it, and the release edge grants client 1. */
  lemma Phase6Edges(weight: nat)
    requires weight == Packed([1, 0, 0, 0], WeightWidth)
    ensures Run(Setup, ResetState(Setup), 0x3, 0, weight, 2) == ArbState(true, 0, 0)
    ensures Next(Setup, Run(Setup, ArbState(true, 0, 0), 0x3, 0x1, weight, 5), 0x3, 0, weight) ==
            ArbState(true, 1, 0)
  {
    FourWeights(1, 0, 0, 0);
    assert Requests(0x3, 0) && Requests(0x3, 1) && Locks(0x1, 0) && !Locks(0, 0);
    assert Run(Setup, ResetState(Setup), 0x3, 0, weight, 1) == ArbState(true, 0, 1);
    LockReleaseRotates(Setup, ArbState(true, 0, 0), 0x3, 0x1, 0, weight, 5);
  }
}
