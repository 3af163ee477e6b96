/** The weighted round-robin arbiter with owner-only lock that the
    testbench drives, at clock-cycle granularity, following the design's
    documented arbitration policy (the testbench's phases are consistent
    with it but do not pin every rule down): the arbitration state, the
    circular candidate search and the per-edge transition, first as
    functions and then as the `Arbiter` object whose `Step` is one rising
    clock edge. */
module WrrArbiter {
  import opened Bits
  import opened GrantDecode

  datatype Option<T> = None | Some(value: T)

  /** The two elaboration parameters, NUM_CLIENTS and WEIGHT_WIDTH. */
  datatype Config = Config(numClients: nat, weightWidth: nat)

  /** The registers: whether a client owns the resource, the owner (also the
      rotation pointer while idle) and the remaining extra cycles of credit. */
  datatype ArbState = ArbState(active: bool, owner: nat, credit: nat)

  /** The owner names a client and the credit fits in WEIGHT_WIDTH bits. */
  predicate Inv(cfg: Config, s: ArbState)
  {
    s.owner < cfg.numClients && s.credit < Pow2(cfg.weightWidth)
  }

  /** Client c's bit of the `i_req` vector. */
  predicate Requests(req: nat, c: nat)
  {
    Bit(req, c) == 1
  }

  /** Client c's bit of the `i_lock` vector. */
  predicate Locks(lock: nat, c: nat)
  {
    Bit(lock, c) == 1
  }

  /** Client c's field of the packed `i_weight` vector; it always fits the
      WEIGHT_WIDTH-bit credit register. */
  function WeightOf(cfg: Config, weight: nat, c: nat): (w: nat)
    ensures w < Pow2(cfg.weightWidth)
  {
    Field(weight, c * cfg.weightWidth, cfg.weightWidth)
  }

  /** The state forced by reset: idle, credit 0, pointer parked at the last
      client so that the first search starts at client 0. */
  function ResetState(cfg: Config): ArbState
    requires cfg.numClients >= 1
  {
    ArbState(false, cfg.numClients - 1, 0)
  }

  /** The grant output `o_gnt`: `1 << owner` while active, else 0. It is
      one-hot, with its single bit at the owner, exactly while active. */
  function GrantVector(s: ArbState): (g: nat)
    ensures s.active ==> IsPow2(g) && Log2(g) == s.owner
    ensures !s.active <==> g == 0
  {
    if s.active then Log2OfPow2(s.owner); Pow2(s.owner) else 0
  }

  // ---------------------------------------------------------------------
  // Candidate search
  // ---------------------------------------------------------------------

  /** The client d places after ptr in circular order. */
  function Circ(n: nat, ptr: nat, d: nat): nat
    requires n >= 1
  {
    (ptr + d) % n
  }

  /** Circular distance from ptr to c, in 1 .. n; ptr itself is the farthest. */
  function Dist(n: nat, ptr: nat, c: nat): nat
    requires ptr < n
  {
    if c > ptr then c - ptr else c + n - ptr
  }

  /** The first requester among the clients at distance d, d+1, .., n from ptr. */
  function SearchFrom(n: nat, ptr: nat, req: nat, d: nat): (r: Option<nat>)
    requires n >= 1 && d >= 1
    ensures r.Some? ==> r.value < n && Requests(req, r.value)
    decreases n + 1 - d
  {
    if d > n then None
    else if Requests(req, Circ(n, ptr, d)) then Some(Circ(n, ptr, d))
    else SearchFrom(n, ptr, req, d + 1)
  }

  /** Nearest requester strictly after ptr, scanning ptr+1, .., ptr+n (mod n). */
  function Search(n: nat, ptr: nat, req: nat): (r: Option<nat>)
    requires n >= 1
    ensures r.Some? ==> r.value < n && Requests(req, r.value)
  {
    SearchFrom(n, ptr, req, 1)
  }

  /** The search as a bounded loop over the n circular positions. */
  method FindNext(n: nat, ptr: nat, req: nat) returns (c: Option<nat>)
    requires n >= 1
    ensures c == Search(n, ptr, req)
  {
    var d := 1;
    while d <= n
      invariant 1 <= d <= n + 1
      invariant SearchFrom(n, ptr, req, d) == Search(n, ptr, req)
    {
      if Requests(req, (ptr + d) % n) {
        return Some((ptr + d) % n);
      }
      d := d + 1;
    }
    return None;
  }

  // ---------------------------------------------------------------------
  // Transition
  // ---------------------------------------------------------------------

  /** The owner keeps the grant while it still requests and either holds its
      own lock or has credit left. Lock bits of other clients play no part. */
  predicate Retains(s: ArbState, req: nat, lock: nat)
  {
    s.active && Requests(req, s.owner) && (Locks(lock, s.owner) || s.credit > 0)
  }

  /** A fresh arbitration from pointer ptr: the found client is granted with
      its configured weight as credit; with no requester the arbiter goes
      idle and keeps the pointer. */
  function Rearbitrate(cfg: Config, ptr: nat, req: nat, weight: nat): (r: ArbState)
    requires cfg.numClients >= 1
    ensures r.active ==> r.owner < cfg.numClients && Requests(req, r.owner) &&
                         r.credit == WeightOf(cfg, weight, r.owner)
    ensures !r.active ==> r.owner == ptr && r.credit == 0
  {
    match Search(cfg.numClients, ptr, req)
    case Some(c) => ArbState(true, c, WeightOf(cfg, weight, c))
    case None => ArbState(false, ptr, 0)
  }

  /** One rising clock edge. A retained cycle decrements the credit, locked or
      not, saturating at 0; otherwise the arbiter re-arbitrates from the owner. */
  function Next(cfg: Config, s: ArbState, req: nat, lock: nat, weight: nat): ArbState
    requires cfg.numClients >= 1
  {
    if Retains(s, req, lock) then ArbState(true, s.owner, if s.credit > 0 then s.credit - 1 else 0)
    else Rearbitrate(cfg, s.owner, req, weight)
  }

  // ---------------------------------------------------------------------
  // The arbiter object
  // ---------------------------------------------------------------------

  class Arbiter {
    const cfg: Config
    var active: bool
    var owner: nat
    var credit: nat

    ghost predicate Valid()
      reads this
    {
      cfg.numClients >= 1 && Inv(cfg, State())
    }

    function State(): ArbState
      reads this
    {
      ArbState(active, owner, credit)
    }

    /** The grant output `o_gnt`, which decodes to the owner, or to "no
        grant" while idle. */
    function Grant(): (g: nat)
      reads this
      requires Valid()
      ensures GrantIndex(g, cfg.numClients) == if active then owner else -1
    {
      GrantIndexOfOneHot(owner, cfg.numClients);
      GrantVector(State())
    }

    /** Elaboration with NUM_CLIENTS = numClients and WEIGHT_WIDTH = weightWidth;
        the registers start in the reset state. */
    constructor (numClients: nat, weightWidth: nat)
      requires numClients >= 1
      ensures cfg == Config(numClients, weightWidth)
      ensures Valid() && State() == ResetState(cfg)
    {
      cfg := Config(numClients, weightWidth);
      active, owner, credit := false, numClients - 1, 0;
    }

    /** Reset (`rst_n` low). */
    method Reset()
      requires Valid()
      modifies this
      ensures Valid() && State() == ResetState(cfg)
    {
      active, owner, credit := false, cfg.numClients - 1, 0;
    }

    /** One rising edge of `clk` with the sampled `i_req`, `i_lock` and `i_weight`. */
    method Step(req: nat, lock: nat, weight: nat)
      requires Valid()
      modifies this
      ensures Valid() && State() == Next(cfg, old(State()), req, lock, weight)
    {
      var keep := active && Requests(req, owner) && (Locks(lock, owner) || credit > 0);
      if keep {
        if credit > 0 {
          credit := credit - 1;
        }
      } else {
        var c := FindNext(cfg.numClients, owner, req);
        match c
        case Some(next) =>
          active, owner, credit := true, next, WeightOf(cfg, weight, next);
        case None =>
          active, credit := false, 0;
      }
    }
  }
}
