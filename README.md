# Weighted round-robin arbiter with owner-only lock: the hidden cocotb test

This project models the hidden cocotb testbench `tests/test_arbiter_hidden.py`
of the `arbiter_wrr_design` repository, together with the arbiter it drives.

- The testbench's two pure helpers are modelled directly:
  - `get_grant_index` decodes the one-hot grant output `o_gnt` into a client
    index: -1 for no grant, -2 for several grants. Its docstring
    (tests/test_arbiter_hidden.py:16) says several grants give -1, but
    the code returns -2 (:23-24). The model follows the code.
  - `pack_weights` packs the per-client weight table into the single
    `i_weight` signal.
- The test `test_arbiter_wrr_lock` runs six phases against a DUT with
  NUM_CLIENTS = 4 and WEIGHT_WIDTH = 4:
  1. basic rotation
  2. weighted fairness
  3. work conservation (early drop)
  4. atomic lock
  5. illegal lock by a non-owner
  6. lock-to-switch (no credit reload on unlock)
- The DUT itself (`sources/arbiter_wrr_lock.sv`) is not part of this
  model. What it does on each clock edge follows the design's documented
  arbitration policy. The six phases are consistent with that policy, but
  they do not pin every rule of it down (see "## Left out"):
  - The state is `active`, `owner` and `credit`. `owner` also serves as the
    rotation pointer.
  - The owner keeps the grant while it requests and either holds its own
    lock bit or has credit left. Each retained edge decrements the credit,
    saturating at 0, whether or not the owner is locked.
  - Otherwise the arbiter searches circularly from the owner for the nearest
    requester. That client gets the grant, with its weight as credit.
  - With no requester at all the arbiter goes idle and keeps the pointer.

Modules:

- `Bits` models Python's `<<`, `>>`, `&` and `|` on non-negative integers.
  The operators are recursive functions on `nat`, with the lemmas the
  helpers need.
- `GrantDecode` gives `get_grant_index` as a loop method, proved equal to
  a reference function. Lemmas about one-hot vectors accompany it.
- `WeightPacking` gives `pack_weights` as a loop method, proved equal to a
  reference packing. Field lemmas state that each weight can be read back
  from its own field.
- `WrrArbiter` holds the state, the candidate search and the transition
  `Next`. It also holds the class `Arbiter`: its fields are the registers
  and its `Step` is one rising edge.
- `ArbiterProperties` proves what the policy promises, over one edge and
  over many.
- `TestPhases` contains:
  - `reset_dut`, and edge-and-read helpers for the two ways the testbench
    samples `o_gnt`;
  - one method per phase, which proves that the reads are exactly the
    values the test asserts;
  - `TestArbiterWrrLock`, which chains all six phases on one `Arbiter`.

How the testbench's reads are modelled:

- The test reads `o_gnt` either directly after `await RisingEdge`, or after
  `await RisingEdge` plus the 1 ns `Timer`. The registered grant output
  changes slightly after the edge.
- A read made directly after the edge therefore sees the registers as they
  were *before* that edge. This is `EdgeThenRead`.
- A read made after the settle delay sees the state the edge produced. This
  is `EdgeSettleRead`.
- The rising edge that ends `reset_dut` finds every input at 0, so it leaves
  the reset state unchanged.
- Under this reading every assertion of the six phases holds, with the
  values proved in `TestPhases`.
- Phase 4 has a detail that the test's comments do not mention:
  - The lock is raised only after the second edge. That second edge passes
    the grant to client 1, because the weight is 0.
  - The first locked edge hands the grant back to client 0. Client 1 has
    neither a lock nor credit.
  - Client 0 then holds the grant for all ten locked reads (`Phase4Edges`).

## Model

| member | source | states |
|---|---|---|
| GrantDecode.GetGrantIndex | tests/test_arbiter_hidden.py:13-30 | the zero test, the power-of-two test and the bit scan return exactly the reference decode `GrantIndex`: -1 for 0, -2 for several set bits, the set bit's index if it names a client, otherwise -1 |
| GrantDecode.GrantIndexOfOneHot | tests/test_arbiter_hidden.py:26-30 | the vector `1 << i` decodes to i when i < num_clients and to -1 when the bit lies beyond the clients |
| GrantDecode.GrantIndexNamesOneHot | tests/test_arbiter_hidden.py:26-30 | a non-negative decode is a client index whose one-hot vector is exactly the decoded value |
| GrantDecode.GrantIndexMultiple | tests/test_arbiter_hidden.py:22-24 | the decode is -2 if and only if two distinct bits of the value are set |
| Bits.Shr | tests/test_arbiter_hidden.py:28 | `v >> k` as k repeated halvings; `ShrIsFloorDiv` proves it equals v divided by 2^k, rounded down |
| Bits.ShrIsFloorDiv | tests/test_arbiter_hidden.py:28 | `v >> k` is v / 2^k rounded down, for every v and k |
| Bits.Shl | tests/test_arbiter_hidden.py:46 | `v << k` is v * 2^k |
| Bits.And | tests/test_arbiter_hidden.py:23 | bitwise `a & b`, computed bit by bit from the lowest; the result never exceeds either operand |
| Bits.Or | tests/test_arbiter_hidden.py:46 | the bitwise OR of a and b, computed bit by bit from the lowest; the result is at least each operand and at most their sum |
| Bits.AndPredecessor | tests/test_arbiter_hidden.py:23 | for non-zero v, `v & (v - 1)` is 0 exactly when v is a power of two |
| Bits.AndOne | tests/test_arbiter_hidden.py:28 | `x & 1` is the lowest bit of x |
| Bits.AndLowMask | tests/test_arbiter_hidden.py:46 | `a & ((1 << k) - 1)` is a mod 2^k |
| Bits.OrDisjoint | tests/test_arbiter_hidden.py:46 | or-ing a value shifted wholly above a smaller one is addition |
| WeightPacking.PackWeights | tests/test_arbiter_hidden.py:42-47 | the loop computes the reference packing; every field i holds weight i masked to width bits; the result fits in len(weights) * width bits |
| WeightPacking.PackedSnoc | tests/test_arbiter_hidden.py:45-46 | appending a weight adds its masked value shifted to the next field |
| WeightPacking.PackedBound | tests/test_arbiter_hidden.py:42-47 | the packed value is below 2^(len * width) |
| WeightPacking.PackedField | tests/test_arbiter_hidden.py:42-47 | reading field i back out of the packed value gives weight i mod 2^width (round trip) |
| WeightPacking.PackedFieldsIndependent | tests/test_arbiter_hidden.py:42-47 | changing weight j leaves each other client's field unchanged |
| WeightPacking.PackedHighBitsZero | tests/test_arbiter_hidden.py:42-47 | no bit above the table is set |
| WrrArbiter.WeightOf | tests/test_arbiter_hidden.py:42-47 | the arbiter reads client c's weight as bits [c*W, (c+1)*W) of `i_weight`, so the value always fits the W-bit credit register |
| WrrArbiter.GrantVector | tests/test_arbiter_hidden.py:13-30 | `o_gnt` is a single bit at the owner while active and 0 while idle |
| WrrArbiter.Search | tests/test_arbiter_hidden.py:84-90 | the candidate search from the pointer; any candidate found is a requesting client (`SearchNearest` proves it is the nearest one) |
| WrrArbiter.Retains | tests/test_arbiter_hidden.py:105-118 | the retention rule: the owner keeps the grant if it is active and requesting, and either locked or with credit left; other clients' lock bits do not enter |
| WrrArbiter.Rearbitrate | tests/test_arbiter_hidden.py:136-149 | a re-arbitration grants a requesting client loaded with its full weight, or goes idle with credit 0 and the pointer kept |
| WrrArbiter.Next | tests/test_arbiter_hidden.py:74-237 | one clock edge: a retained owner keeps the grant and its credit drops by one, saturating at 0; otherwise the arbiter re-arbitrates from the owner. Its properties are the `ArbiterProperties` lemmas |
| WrrArbiter.SearchFrom | tests/test_arbiter_hidden.py:84-90 | a found candidate is a client index whose request bit is set |
| WrrArbiter.FindNext | tests/test_arbiter_hidden.py:84-90 | the bounded circular scan after the pointer returns exactly the reference search |
| WrrArbiter.Arbiter.Grant | tests/test_arbiter_hidden.py:13-30 | the grant vector decodes to the owner while active and to -1 while idle |
| WrrArbiter.Arbiter.constructor | tests/test_arbiter_hidden.py:65-67 | elaboration with the given NUM_CLIENTS and WEIGHT_WIDTH starts in the reset state |
| WrrArbiter.Arbiter.Reset | tests/test_arbiter_hidden.py:32-40 | reset forces idle, credit 0 and the pointer at the last client, and keeps the invariant |
| WrrArbiter.Arbiter.Step | tests/test_arbiter_hidden.py:74-237 | one clock edge moves the registers to `Next` of the old state and keeps the invariant |
| ArbiterProperties.RunAppend | tests/test_arbiter_hidden.py:116-118 | a+b edges with the same inputs are a edges followed by b edges |
| ArbiterProperties.SearchFromScans | tests/test_arbiter_hidden.py:84-90 | the scan from distance d stops at the first requester at distance d or more, and finds nobody only when no client at distance d..n requests |
| ArbiterProperties.SearchNearest | tests/test_arbiter_hidden.py:84-90 | the candidate requests and is at least as near, circularly after the pointer, as every other requester; there is no candidate if and only if nobody requests |
| ArbiterProperties.DistInjective | tests/test_arbiter_hidden.py:84-90 | two clients at the same circular distance from the pointer are the same client, so the nearest candidate is unique |
| ArbiterProperties.RearbitrateRotates | tests/test_arbiter_hidden.py:113-122 | if another client requests, re-arbitration grants someone other than the pointer client |
| ArbiterProperties.NextKeepsInv | tests/test_arbiter_hidden.py:22-24 | every edge keeps the owner below NUM_CLIENTS and the credit within WEIGHT_WIDTH bits |
| ArbiterProperties.OneOwnerOrNone | tests/test_arbiter_hidden.py:22-24 | `o_gnt` never decodes to -2: it decodes to the owner while active and to -1 while idle |
| ArbiterProperties.GrantImpliesRequest | tests/test_arbiter_hidden.py:136-149 | a client granted after an edge requested at that edge |
| ArbiterProperties.OnlyOwnerLockCounts | tests/test_arbiter_hidden.py:187-205 | the next state depends on the lock vector only through the owner's own bit |
| ArbiterProperties.NonOwnerLockIgnored | tests/test_arbiter_hidden.py:199-205 | clearing a non-owner's lock bit gives the same next state |
| ArbiterProperties.WorkConserving | tests/test_arbiter_hidden.py:136-149 | whenever some client requests, the arbiter is granted after the edge |
| ArbiterProperties.DropForcesRearbitration | tests/test_arbiter_hidden.py:136-149 | an owner that drops its request loses the grant on that edge whatever its credit or lock; the next owner is a requester with its full weight |
| ArbiterProperties.CreditHold | tests/test_arbiter_hidden.py:105-118 | a requesting owner keeps the grant for k <= credit edges, losing one unit per edge |
| ArbiterProperties.WeightedHold | tests/test_arbiter_hidden.py:92-122 | a freshly granted client with weight w that keeps requesting, unlocked, owns for w + 1 cycles and the next edge re-arbitrates from it |
| ArbiterProperties.LockedHold | tests/test_arbiter_hidden.py:164-173 | a locked requesting owner keeps the grant for any number of edges while its credit runs down to 0 |
| ArbiterProperties.LockReleaseRotates | tests/test_arbiter_hidden.py:218-237 | after a lock held at least as long as the credit, the release edge re-arbitrates, with no credit reload |
| ArbiterProperties.IdleKeepsPointer | tests/test_arbiter_hidden.py:32-40 | with no request the arbiter is idle after each edge and keeps the pointer |
| ArbiterProperties.IdleThenLoneRequest | tests/test_arbiter_hidden.py:126-134 | however long the idle stretch, a lone request from client c is granted on the next edge with c's weight as credit |
| ArbiterProperties.RoundRobinStep | tests/test_arbiter_hidden.py:74-90 | all requesting, weights 0, no lock: each edge grants the client after the current owner |
| ArbiterProperties.RoundRobinRun | tests/test_arbiter_hidden.py:74-90 | under the same inputs the owner after k edges is (pointer + k) mod NUM_CLIENTS |
| TestPhases.Trace | tests/test_arbiter_hidden.py:86-90 | there are k reads, and read i is the decoded owner after i edges |
| TestPhases.ResetDut | tests/test_arbiter_hidden.py:32-40 | reset plus the edge that ends it leave the reset state |
| TestPhases.EdgeThenRead | tests/test_arbiter_hidden.py:107-111 | a read directly after an edge sees the owner from before the edge; the registers advance by `Next` |
| TestPhases.EdgeSettleRead | tests/test_arbiter_hidden.py:139-148 | a read after the settle delay sees the owner the edge chose |
| TestPhases.Edges | tests/test_arbiter_hidden.py:222-223 | k unread edges advance the registers k times |
| TestPhases.EdgesThenRead | tests/test_arbiter_hidden.py:86-90 | k edges each read directly give `Trace` of the starting state |
| TestPhases.EdgesSettleRead | tests/test_arbiter_hidden.py:167-173 | k edges each read after the settle delay give `Trace` of the state after the first edge |
| TestPhases.Phase1BasicRotation | tests/test_arbiter_hidden.py:74-90 | the reads are 0, 1, 2, 3, 0 |
| TestPhases.Phase1Trace | tests/test_arbiter_hidden.py:74-90 | the first edge grants client 0 with no credit, and the next five reads are 0, 1, 2, 3, 0 |
| TestPhases.Phase2WeightedFairness | tests/test_arbiter_hidden.py:92-122 | the reads are 0, 0, 1, 1, 1, 1, 2 |
| TestPhases.Phase2Trace | tests/test_arbiter_hidden.py:92-122 | with weights [1, 3, 0, 0] the first edge grants client 0 with credit 1, and the next seven reads are 0, 0, 1, 1, 1, 1, 2 |
| TestPhases.Phase3WorkConservation | tests/test_arbiter_hidden.py:124-149 | the reads are 0 and then 1 |
| TestPhases.Phase3Edges | tests/test_arbiter_hidden.py:124-149 | client 0 is granted with credit 15, and the edge that sees its request drop grants client 1 |
| TestPhases.Phase4AtomicLock | tests/test_arbiter_hidden.py:151-185 | the reads are eleven 0s and then a 1 |
| TestPhases.Phase4Hold | tests/test_arbiter_hidden.py:164-173 | the ten locked, settled reads are all 0 and leave client 0 owning |
| TestPhases.Phase4Edges | tests/test_arbiter_hidden.py:154-185 | with the weight vector 0: the grant goes to client 0, then to client 1 on the unlocked second edge, then back to client 0 on the first locked edge; unlocking from client 0 grants client 1 |
| TestPhases.Phase4Locked | tests/test_arbiter_hidden.py:164-173 | ten locked edges leave client 0 owning, and each read sees client 0 |
| TestPhases.Phase5IllegalLock | tests/test_arbiter_hidden.py:187-205 | the reads are 0, 0, and after the edge with client 1's lock bit, client 0 still owns with credit 3 |
| TestPhases.Phase5Edges | tests/test_arbiter_hidden.py:187-205 | client 0 is granted with credit 5 and keeps the grant across the edge where only client 1 locks |
| TestPhases.Phase6LockToSwitch | tests/test_arbiter_hidden.py:207-237 | the read after the release edge is 1 |
| TestPhases.Phase6Edges | tests/test_arbiter_hidden.py:207-237 | two unlocked edges spend client 0's credit of 1; after five locked edges, the release edge grants client 1 |
| TestPhases.FourWeights | tests/test_arbiter_hidden.py:42-47 | each field of a packed four-entry table, as the arbiter reads it, is that entry mod 16 |
| TestPhases.TestArbiterWrrLock | tests/test_arbiter_hidden.py:53-239 | on one elaborated arbiter the six phases read exactly the sequences the test asserts |

## Left out

- The DUT's SystemVerilog source (`sources/arbiter_wrr_lock.sv`) is not part of this model. `WrrArbiter.Next` follows the design's documented policy, and the six phases are consistent with it. It is not a translation of the RTL.
- No phase tells apart the following three rules from alternatives, so they rest on the documented policy alone:
  - Credit decrements while locked. On every edge where phases 4 and 6 sample the owner's lock, the credit is already 0. Freezing the credit while locked would give the same reads.
  - The pointer is kept while idle. The only edge with no request is the one that ends `reset_dut`, and it starts from the reset state.
  - Only the owner's lock bit counts. Phase 5's assertion reads without the settle delay, so it sees the state before the edge that samples client 1's lock. `Phase5IllegalLock` adds a postcondition on the state after that edge to state the rule.
- Phase 4 does pin the saturation at 0. With a wrapping decrement, client 0 would still hold credit at the release edge and would keep the grant.
- The idle transition sets credit to 0. Only `active` and the pointer are observable while idle, so no phase tells this apart from keeping the old credit.
- The cocotb runtime is left out: the clock coroutine, `Timer` durations, simulator scheduling, and the `dut._log` messages. The only timing modelled is whether a read comes before or after an edge's update.
- The reset is applied through `rst_n` over 20 ns. It is modelled as one `Reset` that forces the reset state, followed by the edge that ends `reset_dut`.
- The pytest runner `test_arbiter_hidden_runner` is left out, because it only builds and launches the simulator. The module-level imports are left out as well, including the unused `random`.
- `get_grant_index` and `pack_weights` accept any Python integer. The model takes non-negative values only (`nat`), since signal values are unsigned. Negative weights, with Python's two's-complement `&`, are not modelled.
- WrrArbiter.Arbiter.constructor: requires NUM_CLIENTS >= 1 and does not model an elaboration error for other values. WEIGHT_WIDTH = 0 is accepted and gives all-zero weights.
- Python's `assert` statements become postconditions of the phase methods. The failure messages are left out.
