/** What the arbitration policy guarantees, stated over the transition
    function `Next`: a single owner, grants only to requesters, owner-only
    locking, work conservation, weighted hold times and fair rotation. */
module ArbiterProperties {
  import opened Bits
  import opened GrantDecode
  import opened WrrArbiter

  /** k rising edges with the same inputs. */
  function Run(cfg: Config, s: ArbState, req: nat, lock: nat, weight: nat, k: nat): ArbState
    requires cfg.numClients >= 1
  {
    if k == 0 then s else Next(cfg, Run(cfg, s, req, lock, weight, k - 1), req, lock, weight)
  }

  /** Running a + b edges is running a edges and then b more from where they left off. */
  lemma {:induction false} RunAppend(cfg: Config, s: ArbState, req: nat, lock: nat, weight: nat, a: nat, b: nat)
    requires cfg.numClients >= 1
    ensures Run(cfg, s, req, lock, weight, a + b) ==
            Run(cfg, Run(cfg, s, req, lock, weight, a), req, lock, weight, b)
  {
    if b > 0 {
      RunAppend(cfg, s, req, lock, weight, a, b - 1);
    }
  }

  // ---------------------------------------------------------------------
  // Candidate search
  // ---------------------------------------------------------------------

  lemma CircDist(n: nat, ptr: nat, c: nat)
    requires ptr < n && c < n
    ensures 1 <= Dist(n, ptr, c) <= n && Circ(n, ptr, Dist(n, ptr, c)) == c
  {
    ModOnce(ptr + Dist(n, ptr, c), n);
  }

  lemma DistCirc(n: nat, ptr: nat, e: nat)
    requires ptr < n && 1 <= e <= n
    ensures Circ(n, ptr, e) < n && Dist(n, ptr, Circ(n, ptr, e)) == e
  {
    ModOnce(ptr + e, n);
  }

  /** The scan from distance d stops at the first requester at distance >= d. */
  lemma {:induction false} SearchFromScans(n: nat, ptr: nat, req: nat, d: nat)
    requires n >= 1 && ptr < n && d >= 1
    ensures SearchFrom(n, ptr, req, d).Some? ==>
              var c := SearchFrom(n, ptr, req, d).value;
              d <= Dist(n, ptr, c) &&
              forall e: nat :: d <= e < Dist(n, ptr, c) ==> !Requests(req, Circ(n, ptr, e))
    ensures SearchFrom(n, ptr, req, d).None? ==>
              forall e: nat :: d <= e <= n ==> !Requests(req, Circ(n, ptr, e))
    decreases n + 1 - d
  {
    if d <= n {
      if Requests(req, Circ(n, ptr, d)) {
        DistCirc(n, ptr, d);
      } else {
        SearchFromScans(n, ptr, req, d + 1);
      }
    }
  }

  /** The search returns a requesting client at least as close (in circular
      order after ptr) as every other requester, and finds nobody exactly
      when no client requests. */
  lemma SearchNearest(n: nat, ptr: nat, req: nat)
    requires n >= 1 && ptr < n
    ensures Search(n, ptr, req).Some? ==>
              var c := Search(n, ptr, req).value;
              c < n && Requests(req, c) &&
              forall c': nat :: c' < n && Requests(req, c') ==> Dist(n, ptr, c) <= Dist(n, ptr, c')
    ensures Search(n, ptr, req).None? <==> forall c: nat :: c < n ==> !Requests(req, c)
  {
    SearchFromScans(n, ptr, req, 1);
    if Search(n, ptr, req).Some? {
      var c := Search(n, ptr, req).value;
      forall c': nat | c' < n && Requests(req, c')
        ensures Dist(n, ptr, c) <= Dist(n, ptr, c')
      {
        CircDist(n, ptr, c');
      }
    } else {
      forall c: nat | c < n
        ensures !Requests(req, c)
      {
        CircDist(n, ptr, c);
      }
    }
  }

  /** Two clients at the same distance from ptr are the same client. */
  lemma DistInjective(n: nat, ptr: nat, c: nat, c': nat)
    requires ptr < n && c < n && c' < n && Dist(n, ptr, c) == Dist(n, ptr, c')
    ensures c == c'
  {
    CircDist(n, ptr, c);
    CircDist(n, ptr, c');
  }

  /** When some other client requests, re-arbitration moves the grant away
      from the pointer client. */
  lemma RearbitrateRotates(cfg: Config, ptr: nat, req: nat, weight: nat, other: nat)
    requires cfg.numClients >= 1 && ptr < cfg.numClients
    requires other < cfg.numClients && other != ptr && Requests(req, other)
    ensures Rearbitrate(cfg, ptr, req, weight).active
    ensures Rearbitrate(cfg, ptr, req, weight).owner != ptr
  {
    var n := cfg.numClients;
    SearchNearest(n, ptr, req);
    CircDist(n, ptr, other);
    assert Dist(n, ptr, other) < n;
  }

  // ---------------------------------------------------------------------
  // One edge
  // ---------------------------------------------------------------------

  /** Every edge keeps the owner in range and the credit within WEIGHT_WIDTH bits. */
  lemma NextKeepsInv(cfg: Config, s: ArbState, req: nat, lock: nat, weight: nat)
    requires cfg.numClients >= 1 && Inv(cfg, s)
    ensures Inv(cfg, Next(cfg, s, req, lock, weight))
  {
  }

  /** The grant output never names more than one client: it decodes to the
      owner while active and to "no grant" (-1) while idle, never to -2. */
  lemma OneOwnerOrNone(cfg: Config, s: ArbState)
    requires Inv(cfg, s)
    ensures GrantIndex(GrantVector(s), cfg.numClients) == if s.active then s.owner else -1
  {
    GrantIndexOfOneHot(s.owner, cfg.numClients);
  }

  /** A client is granted after an edge only if it requested at that edge. */
  lemma GrantImpliesRequest(cfg: Config, s: ArbState, req: nat, lock: nat, weight: nat)
    requires cfg.numClients >= 1
    ensures Next(cfg, s, req, lock, weight).active ==>
              Requests(req, Next(cfg, s, req, lock, weight).owner)
  {
  }

  /** Only the owner's own lock bit is consulted: the next state is the same
      as when every other lock bit is clear. */
  lemma OnlyOwnerLockCounts(cfg: Config, s: ArbState, req: nat, lock: nat, weight: nat)
    requires cfg.numClients >= 1
    ensures Next(cfg, s, req, lock, weight) ==
            Next(cfg, s, req, if s.active && Locks(lock, s.owner) then Pow2(s.owner) else 0, weight)
  {
    BitOfPow2(s.owner, s.owner);
    ShrZero(s.owner);
  }

  /** Lock isolation: a lock bit raised by a client that is not the owner
      changes nothing; the next state equals the one with that bit cleared. */
  lemma NonOwnerLockIgnored(cfg: Config, s: ArbState, req: nat, lock: nat, weight: nat, c: nat)
    requires cfg.numClients >= 1
    requires !s.active || c != s.owner
    ensures Next(cfg, s, req, lock, weight) == Next(cfg, s, req, ClearBit(lock, c), weight)
  {
    ClearBitBits(lock, c, s.owner);
  }

  /** Work conservation: whenever some client requests, the arbiter is not idle after the edge. */
  lemma WorkConserving(cfg: Config, s: ArbState, req: nat, lock: nat, weight: nat, c: nat)
    requires cfg.numClients >= 1 && Inv(cfg, s)
    requires c < cfg.numClients && Requests(req, c)
    ensures Next(cfg, s, req, lock, weight).active
  {
    SearchNearest(cfg.numClients, s.owner, req);
  }

  /** Early release: an owner that drops its request loses the grant at once,
      whatever its credit or lock; the new owner (if any) is another client,
      starts with its own full weight, and the old credit is discarded. */
  lemma DropForcesRearbitration(cfg: Config, s: ArbState, req: nat, lock: nat, weight: nat)
    requires cfg.numClients >= 1 && Inv(cfg, s)
    requires s.active && !Requests(req, s.owner)
    ensures Next(cfg, s, req, lock, weight) == Rearbitrate(cfg, s.owner, req, weight)
    ensures Next(cfg, s, req, lock, weight).active ==>
              Next(cfg, s, req, lock, weight).owner != s.owner &&
              Next(cfg, s, req, lock, weight).credit ==
                WeightOf(cfg, weight, Next(cfg, s, req, lock, weight).owner)
    ensures (exists c: nat :: c < cfg.numClients && Requests(req, c)) ==> Next(cfg, s, req, lock, weight).active
  {
    SearchNearest(cfg.numClients, s.owner, req);
  }

  // ---------------------------------------------------------------------
  // Credit and lock over several edges
  // ---------------------------------------------------------------------

  /** An owner that keeps requesting holds the grant while its credit lasts,
      losing one unit per edge, whatever the lock bits are. */
  lemma {:induction false} CreditHold(cfg: Config, s: ArbState, req: nat, lock: nat, weight: nat, k: nat)
    requires cfg.numClients >= 1
    requires s.active && Requests(req, s.owner) && k <= s.credit
    ensures Run(cfg, s, req, lock, weight, k) == ArbState(true, s.owner, s.credit - k)
  {
    if k > 0 {
      CreditHold(cfg, s, req, lock, weight, k - 1);
    }
  }

  /** Weighted hold: a client freshly granted with weight w that keeps
      requesting without lock owns the resource for exactly w + 1 cycles
      (the grant edge and w retained edges); the next edge re-arbitrates
      from it. */
  lemma WeightedHold(cfg: Config, c: nat, req: nat, lock: nat, weight: nat)
    requires cfg.numClients >= 1 && c < cfg.numClients
    requires Requests(req, c) && !Locks(lock, c)
    ensures var s := ArbState(true, c, WeightOf(cfg, weight, c));
            (forall k :: 0 <= k <= WeightOf(cfg, weight, c) ==>
               Run(cfg, s, req, lock, weight, k).active && Run(cfg, s, req, lock, weight, k).owner == c) &&
            Run(cfg, s, req, lock, weight, WeightOf(cfg, weight, c) + 1) == Rearbitrate(cfg, c, req, weight)
  {
    var w := WeightOf(cfg, weight, c);
    var s := ArbState(true, c, w);
    forall k | 0 <= k <= w
      ensures Run(cfg, s, req, lock, weight, k).active && Run(cfg, s, req, lock, weight, k).owner == c
    {
      CreditHold(cfg, s, req, lock, weight, k);
    }
    CreditHold(cfg, s, req, lock, weight, w);
  }

  /** A locked, requesting owner keeps the grant for any number of edges, and
      its credit still runs down to 0 meanwhile. */
  lemma {:induction false} LockedHold(cfg: Config, s: ArbState, req: nat, lock: nat, weight: nat, k: nat)
    requires cfg.numClients >= 1
    requires s.active && Requests(req, s.owner) && Locks(lock, s.owner)
    ensures Run(cfg, s, req, lock, weight, k) ==
            ArbState(true, s.owner, if k <= s.credit then s.credit - k else 0)
  {
    if k > 0 {
      LockedHold(cfg, s, req, lock, weight, k - 1);
    }
  }

  /** No saved-up exemption: an owner locked for at least as many edges as
      it had credit loses the grant on the first edge after the lock is
      released, with no credit reload. */
  lemma LockReleaseRotates(cfg: Config, s: ArbState, req: nat, lockOn: nat, lockOff: nat, weight: nat, k: nat)
    requires cfg.numClients >= 1
    requires s.active && Requests(req, s.owner) && Locks(lockOn, s.owner) && !Locks(lockOff, s.owner)
    requires k >= s.credit
    ensures Next(cfg, Run(cfg, s, req, lockOn, weight, k), req, lockOff, weight) ==
            Rearbitrate(cfg, s.owner, req, weight)
  {
    LockedHold(cfg, s, req, lockOn, weight, k);
  }

  // ---------------------------------------------------------------------
  // Idle periods and rotation
  // ---------------------------------------------------------------------

  /** The all-zero request vector names no client. */
  lemma NoRequestInZero(n: nat)
    ensures forall c: nat :: c < n ==> !Requests(0, c)
  {
    forall c: nat | c < n
      ensures !Requests(0, c)
    {
      ShrZero(c);
    }
  }

  /** With no request the arbiter goes idle and the pointer stays where it was. */
  lemma {:induction false} IdleKeepsPointer(cfg: Config, s: ArbState, req: nat, lock: nat, weight: nat, k: nat)
    requires cfg.numClients >= 1 && Inv(cfg, s) && k >= 1
    requires forall c: nat :: c < cfg.numClients ==> !Requests(req, c)
    ensures Run(cfg, s, req, lock, weight, k) == ArbState(false, s.owner, 0)
  {
    SearchNearest(cfg.numClients, s.owner, req);
    if k > 1 {
      IdleKeepsPointer(cfg, s, req, lock, weight, k - 1);
    }
  }

  /** However long the idle gap, a lone request from client c is granted on
      the very next edge, with c's weight as credit. */
  lemma IdleThenLoneRequest(cfg: Config, s: ArbState, lock: nat, weight: nat, k: nat, c: nat)
    requires cfg.numClients >= 1 && Inv(cfg, s) && k >= 1 && c < cfg.numClients
    ensures Next(cfg, Run(cfg, s, 0, lock, weight, k), Pow2(c), lock, weight) ==
            ArbState(true, c, WeightOf(cfg, weight, c))
  {
    NoRequestInZero(cfg.numClients);
    IdleKeepsPointer(cfg, s, 0, lock, weight, k);
    BitOfPow2(c, c);
    assert Requests(Pow2(c), c);
    SearchNearest(cfg.numClients, s.owner, Pow2(c));
    var found := Search(cfg.numClients, s.owner, Pow2(c));
    assert found.Some?;
    BitOfPow2(c, found.value);
    assert found.value == c;
    assert Run(cfg, s, 0, lock, weight, k) == ArbState(false, s.owner, 0);
  }

  /** All clients requesting, no lock, all weights 0: each edge grants the
      client right after the current one. */
  lemma RoundRobinStep(cfg: Config, s: ArbState, req: nat, weight: nat)
    requires cfg.numClients >= 1 && Inv(cfg, s) && s.credit == 0
    requires forall c: nat :: c < cfg.numClients ==> Requests(req, c)
    requires forall c: nat :: c < cfg.numClients ==> WeightOf(cfg, weight, c) == 0
    ensures Next(cfg, s, req, 0, weight) == ArbState(true, (s.owner + 1) % cfg.numClients, 0)
  {
    ShrZero(s.owner);
    assert Circ(cfg.numClients, s.owner, 1) < cfg.numClients;
  }

  /** Stepping a residue by one is stepping the number by one. */
  lemma ModSucc(a: nat, n: nat)
    requires n >= 1
    ensures (a % n + 1) % n == (a + 1) % n
  {
    var q, r := a / n, a % n;
    if r + 1 < n {
      DivModUnique(a + 1, n, q, r + 1);
      DivModUnique(r + 1, n, 0, r + 1);
    } else {
      DivModUnique(a + 1, n, q + 1, 0);
      DivModUnique(r + 1, n, 1, 0);
    }
  }

  /** Round-robin fairness: under the same conditions, after k >= 1 edges
      the owner is the client k places after the starting pointer, so the
      grant visits every client in ascending circular order with period n. */
  lemma {:induction false} RoundRobinRun(cfg: Config, s: ArbState, req: nat, weight: nat, k: nat)
    requires cfg.numClients >= 1 && Inv(cfg, s) && s.credit == 0 && k >= 1
    requires forall c: nat :: c < cfg.numClients ==> Requests(req, c)
    requires forall c: nat :: c < cfg.numClients ==> WeightOf(cfg, weight, c) == 0
    ensures Run(cfg, s, req, 0, weight, k) == ArbState(true, (s.owner + k) % cfg.numClients, 0)
  {
    if k == 1 {
      RoundRobinStep(cfg, s, req, weight);
    } else {
      RoundRobinRun(cfg, s, req, weight, k - 1);
      var t := Run(cfg, s, req, 0, weight, k - 1);
      RoundRobinStep(cfg, t, req, weight);
      ModSucc(s.owner + k - 1, cfg.numClients);
    }
  }
}
