# METTS core: Trotter gates, collapse sampling, bond operators and the rotated basis

This project models the algorithmic core of a finite-temperature METTS code built on
matrix-product states. It also proves properties of that model. The modelled parts are:

- **Trotter gate lists** (`trotter.h`, module `Trotter`). `makeGates` turns an ordered bond
  list into the gate list of one second-order Trotter step:
  - an adjacent bond becomes one imaginary-time gate with time tau/2;
  - a distant bond becomes a swap network: ascending swaps, one gate on (i2-1, i2), then the
    same swaps descending;
  - a bond whose operator has negligible norm contributes nothing;
  - in ancilla mode, site s is placed on position 2s-1.

  The forward list is followed by its reversal. `cleanGates` then deletes the leftmost pair
  of identical adjacent swaps until none is left. Both operations are methods with loops,
  proved against the specification functions `Forward`, `Mirror` and `Clean`.
- **Collapse** (`collapse.h`, module `Collapse`). This is the left-to-right sampling sweep
  that turns an MPS into a product state. At each site it:
  - checks the d-1 measured probabilities against [0, 1.00000001];
  - completes them with 1 minus their total;
  - picks the first outcome whose cumulative probability reaches the draw;
  - overwrites the site with the basis's `newstate`;
  - carries the rescaled block to the next site.

  The MPS is a class over an array of site tensors. The random source is a class over a
  stream of draws. The carried block is a symbolic datatype, and the projector overlap is a
  function parameter.
- **Bond operators** (`heisops.h`, module `HeisOps`). A class holds the couplings and the
  per-site `putsite` flags. A call returns the bond's operator as a list of symbolic terms,
  and adds each site's field only the first time the site is named.
- **Measurement basis** (`basis.h` and `basis/rotatexz.h`, modules `Basis` and `RotateXZ`).
  - The basis interface is a record of four query functions, with `newstate` defaulting to
    `state`.
  - The rotated basis fills eight per-site tables in its constructor.
  - Its queries pick the "+"/Up entry for outcome 1 and the "-"/Dn entry otherwise.
  - Amplitudes are exact numbers a + b·c with c·c = 1/2 (the source's `ISqrt2`), so the
    projector algebra is proved exactly.

`wrappers.dfy` holds the `Option` type.

## Model

| member | source | states |
|---|---|---|
| Trotter.AncillaPlacement | trotter.h:39-51 | in ancilla mode a bond (s1, s2) is placed on 2·s1-1 and 2·s2-1, both odd and never adjacent; otherwise it stays on (s1, s2) |
| Trotter.Placement | trotter.h:45-51 | outside ancilla mode a bond stays on (s1, s2); in ancilla mode both positions are odd and twice as far apart |
| Trotter.BondGates | trotter.h:53-86 | a bond contributes no gates exactly when its operator is negligible, and every gate it contributes acts on two adjacent positions |
| Trotter.Forward | trotter.h:43-87 | every gate of the forward list acts on two adjacent positions |
| Trotter.BondGatesShape | trotter.h:53-86 | a negligible operator gives no gates; an adjacent bond gives exactly one Evol(i1, i2, tau/2); any other bond gives 2n+1 gates: swaps (i1+t, i1+t+1) ascending, the Evol on (i2-1, i2), then the reverse of the swaps |
| Trotter.DownChainIsReversedUpChain | trotter.h:63-85 | the descending swap chain is exactly the reverse of the ascending one |
| Trotter.SwapNetworkRoutes | trotter.h:63-85 | for i1+1 < i2 the ascending swaps carry site i1 to position i2-1 and leave i2 in place; the whole network returns every site to where it started |
| Trotter.PushBond | trotter.h:57-86 | the two swap loops and the gate in between append exactly the bond's gate block to the list |
| Trotter.Mirror | trotter.h:89-96 | the mirrored list is twice as long, starts with the forward list and reads the same backwards |
| Trotter.AppendReversed | trotter.h:91-96 | appending the reversed copy yields the mirrored list |
| Trotter.ForwardEvolCount | trotter.h:43-87 | the forward list holds exactly one evolution gate per bond whose operator is not negligible |
| Trotter.FirstPairFrom | trotter.h:111-124 | the scan finds the leftmost cancelling pair at or after a position, or reports that none exists; the last element starts no pair |
| Trotter.Clean | trotter.h:107-126 | the cleaned list has no adjacent pair of identical swaps |
| Trotter.CleanGates | trotter.h:103-127 | the in-place while(success) loop ends with the list that Clean specifies |
| Trotter.CleanKeepsClean | trotter.h:107-126 | a list without a cancelling pair is left unchanged |
| Trotter.CleanIdempotent | trotter.h:107-126 | cleaning twice is the same as cleaning once |
| Trotter.CleanLength | trotter.h:107-126 | each pass removes two gates, so the length never grows and keeps its parity |
| Trotter.CleanKeepsEvols | trotter.h:111-124 | the evolution gates survive cleaning, all of them and in order |
| Trotter.CleanSelects | trotter.h:111-124 | the survivors are a subsequence of the input at strictly increasing positions, and every removed gate is a swap |
| Trotter.MakeGates | trotter.h:29-101 | the returned list is Clean(Mirror(Forward(bonds))) with the ancilla remap, the norm skip and the swap network per bond |
| Trotter.DistantBondExample | trotter.h:63-98 | for the single bond (1, 4), mirroring and cleaning leave swaps (1,2), (2,3), both evolution gates, then swaps (2,3), (1,2) |
| Collapse.Overlaps | collapse.h:45-50 | one overlap per outcome 1..d-1 |
| Collapse.OverlapOfOutcome | collapse.h:45-49 | entry s-1 is the overlap of the block with proj(j, s) |
| Collapse.FirstImplausible | collapse.h:45-56 | finds the first measured probability outside [0, 1.00000001], with every earlier one inside |
| Collapse.Measure | collapse.h:45-61 | either every measured value is in [0, 1.00000001] and the d probabilities are those values plus the complement, summing to 1; or it names the first value out of range |
| Collapse.Complete | collapse.h:58-61 | the completed list starts with the measured values, has one more entry, and sums to exactly 1 |
| Collapse.MeasureSite | collapse.h:41-61 | the inner loop stops at the first out-of-range overlap, otherwise it returns the completed probabilities |
| Collapse.SelectOutcome | collapse.h:71-79 | the walk `while r > pdisc` stops at the smallest outcome whose cumulative probability is at least r, within 1..d whenever r is not above the total |
| Collapse.FirstCrossingUnique | collapse.h:71-79 | the chosen outcome is determined by the draw |
| Collapse.FirstOutcomeIffDrawBelowItsMass | collapse.h:71-79 | outcome 1 is picked exactly when r ≤ prob[0], so a tie goes to the lower outcome |
| Collapse.PositiveDrawPicksPositiveOutcome | collapse.h:83-87 | for r > 0 the chosen outcome has positive probability, so the 1/sqrt(p) rescale is defined |
| Collapse.CrossingIsInterval | collapse.h:71-79 | with nonnegative probabilities and r > 0, outcome k is picked exactly for r in (Cum(k-1), Cum(k)], an interval of length prob[k-1] |
| Collapse.EvenSplitExample | collapse.h:71-79 | with probabilities 0.5/0.5, draw 0.3 picks outcome 1 and draw 0.7 picks outcome 2 |
| Collapse.Rng.Next | collapse.h:63-68 | each call consumes the next draw of the stream, which lies in [0, 1] |
| Collapse.Mps.Position | collapse.h:30 | the orthogonality centre moves to k; the gauge transformation may rewrite sites 1..N, and only the boundary slots are promised unchanged |
| Collapse.CollapseSite | collapse.h:41-82 | one pass of the sweep: an out-of-range overlap changes nothing and takes no draw; otherwise exactly one draw is taken, the outcome (in 1..d) is its first crossing and only site j is overwritten, with newstate(j, st) |
| Collapse.SitesDoneStep | collapse.h:31-89 | collapsing site j extends the collapsed prefix: the site gets newstate(j, st), and when j < N the next block absorbs state(j, st) rescaled by prob[st-1] |
| Collapse.DefaultNewStateIsContractedState | collapse.h:82-85 | with the default newstate, every collapsed site k < N holds the same state that was contracted into block k+1 |
| Collapse.Collapse | collapse.h:12-92 | on success: N+1 outcomes, entry 0 is 0, every outcome is in 1..d and is the first crossing of that site's own draw (one draw per site, in site order), every site holds newstate, each block is the next site's tensor, as position(1) left it, with the chosen state absorbed and rescaled, the first block is site 1's tensor as position(1) left it and the boundary slots are untouched; on an out-of-range probability at site j: the measurement of site j names that value, sites 1..j-1 are collapsed as on success, j-1 draws were used and sites j..N hold what position(1) left there |
| HeisOps.CouplingsOf | heisops.h:19-24 | Jz is "Jz" if given, else "J" if given, else 1; Jxy likewise with "Jxy"; Jx, hx and hz are their argument or 0 |
| HeisOps.Call | heisops.h:28-60 | a call fails exactly when i1 or i2 is outside the flags, naming i1 when i1 is outside and i2 otherwise; the flags keep their length |
| HeisOps.GetReal | heisops.h:19-24 | an argument's value is used when it is present, and the default otherwise |
| HeisOps.DefaultCouplings | heisops.h:19-24 | with no arguments the couplings are Jz = Jxy = 1 and Jx = hx = hz = 0; J sets both Jz and Jxy unless they are given explicitly |
| HeisOps.HeisOps.constructor | heisops.h:10-26 | N+1 flags, all set, and the couplings read from the arguments |
| HeisOps.BondTermsShape | heisops.h:32-41 | Jz·Sz·Sz always comes first, even for Jz = 0; S+S- and S-S+ with coefficient Jxy/2 are present iff Jxy ≠ 0; Sx·Sx with Jx is present iff Jx ≠ 0; no bond term carries the identity |
| HeisOps.CallFields | heisops.h:43-57 | a field term on i1 appears iff i1's flag was set and some field is nonzero; one on i2 appears iff i2's flag was set and i2 ≠ i1; both flags are cleared afterwards even when hx = hz = 0 |
| HeisOps.CallOutOfRange | heisops.h:43-57 | a failing bounds-checked flag lookup on i1 changes nothing; one on i2 has already cleared i1's flag |
| HeisOps.FlagsOnlyClear | heisops.h:43-57 | flags only go from set to clear, and only those of i1 and i2 change |
| HeisOps.FlagsAfterRun | heisops.h:43-57 | after a run of calls a flag is still set exactly when it was set before and no call named the site |
| HeisOps.FieldAddedOnce | heisops.h:43-57 | starting from all flags set, site s's field appears in call k exactly when call k is the first call that names s |
| HeisOps.BondOperator | heisops.h:32-41 | the bond part accumulated term by term is exactly BondTerms, whose shape BondTermsShape states |
| HeisOps.AddField | heisops.h:43-57 | adding a site's field appends -hx·Sx and then -hz·Sz, each only when nonzero, on the side of the bond where the site sits |
| HeisOps.HeisOps.Apply | heisops.h:28-60 | builds the operator term by term and updates the flags exactly as Call specifies |
| Basis.NewState | basis.h:24-29 | without an override, newstate answers state(s, n); with one, it answers the override |
| RotateXZ.RotateXZ.constructor | basis/rotatexz.h:16-86 | the eight tables have N+1 slots: slot 0 holds the default entry and slots 1..N hold the projector or state of their table |
| RotateXZ.ZFrameProjectors | basis/rotatexz.h:41-42 | 0.5·Id + Sz and 0.5·Id - Sz are the projectors diag(1, 0) and diag(0, 1) |
| RotateXZ.RotateXZ.State | basis/rotatexz.h:88-93 | on a site 1..N, outcome 1 gives the X-frame state (c, c) and any other outcome gives (c, -c); site 0 gives the default entry; any other site fails |
| RotateXZ.RotateXZ.NewState | basis/rotatexz.h:95-100 | on a site 1..N, outcome 1 gives Z-frame Up and any other outcome gives Dn; site 0 gives the default entry; any other site fails |
| RotateXZ.RotateXZ.Proj | basis/rotatexz.h:102-107 | on a site 1..N, outcome 1 gives the all-0.5 projector and any other outcome gives the one with -0.5 off the diagonal; site 0 gives the default entry; any other site fails |
| RotateXZ.RotateXZ.StateStr | basis/rotatexz.h:109-114 | a one-character label: "+" iff n == 1, "-" otherwise, whatever the site |
| RotateXZ.RotateXZ.AsBasis | basis/rotatexz.h:88-114 | the object seen through the interface overrides newstate |
| RotateXZ.AsBasisAgrees | basis/rotatexz.h:88-114 | the interface view answers every query as the object does, and on sites 1..N its newstate differs from its state |
| RotateXZ.ISqrt2Squared | basis/rotatexz.h:75-78 | c·c = 1/2 |
| RotateXZ.UpXIdempotent | basis/rotatexz.h:45-50 | the all-0.5 projector is idempotent |
| RotateXZ.DnXIdempotent | basis/rotatexz.h:53-58 | the ±0.5 projector is idempotent |
| RotateXZ.XOrthogonal | basis/rotatexz.h:45-58 | the product of the two X-frame projectors is zero |
| RotateXZ.XOrthogonalReversed | basis/rotatexz.h:45-58 | the product in the other order is zero too |
| RotateXZ.XProjectorsResolveIdentity | basis/rotatexz.h:45-58 | both X-frame projectors are symmetric and they sum to the identity |
| RotateXZ.UpZIsHalfIdPlusSz | basis/rotatexz.h:41 | 0.5·Id + Sz = diag(1, 0) |
| RotateXZ.DnZIsHalfIdMinusSz | basis/rotatexz.h:42 | 0.5·Id - Sz = diag(0, 1) |
| RotateXZ.UpZIdempotent | basis/rotatexz.h:41 | the Z-frame Up projector is idempotent |
| RotateXZ.DnZIdempotent | basis/rotatexz.h:42 | the Z-frame Dn projector is idempotent |
| RotateXZ.ZOrthogonal | basis/rotatexz.h:41-42 | the product of the two Z-frame projectors is zero |
| RotateXZ.ZProjectorsResolveIdentity | basis/rotatexz.h:41-42 | both Z-frame projectors are symmetric and they sum to the identity |
| RotateXZ.UpXOuter | basis/rotatexz.h:45-76 | the all-0.5 projector is the outer product of (c, c) with itself |
| RotateXZ.DnXOuter | basis/rotatexz.h:53-78 | the ±0.5 projector is the outer product of (c, -c) with itself |
| RotateXZ.UpZOuter | basis/rotatexz.h:70-72 | diag(1, 0) is the outer product of Up with itself |
| RotateXZ.DnZOuter | basis/rotatexz.h:70-73 | diag(0, 1) is the outer product of Dn with itself |
| RotateXZ.ProjIsOuterOfState | basis/rotatexz.h:88-107 | on a site 1..N, proj(s, n) is the outer product of state(s, n) with itself |
| RotateXZ.ProjectorsResolveIdentityOnSite | basis/rotatexz.h:102-107 | on a site 1..N, proj(s, 1) + proj(s, n) is the identity for any n ≠ 1 |
| RotateXZ.NewStateIsZEigenstate | basis/rotatexz.h:95-100 | on a site 1..N, newstate(s, n) is the eigenstate whose projector is 0.5·Id + Sz for n = 1 and 0.5·Id - Sz otherwise |
| RotateXZ.ZProjectorsNeverReturned | basis/rotatexz.h:88-107 | no query returns a Z-frame projector; state returns only X-frame states and newstate only Z-frame ones |
| RotateXZ.MakeRotateXZ | basis/rotatexz.h:130-135 | the factory returns a fresh, fully built basis of N sites |

## Left out

- The tensor algebra is not modelled:
  - contraction, `norm`, `dag`/`prime`, `toITensor` and `mixedIQTensor`;
  - the index-relabelling tensor II applied to a distant bond's operator, recorded symbolically as `Relabelled(hh, i1, i2-1)`;
  - the IQ symmetry sectors.

  Tensors are a type parameter. The operator norm and the projector overlap are function
  parameters.
- Collapse.Mps.Position: the gauge transformation of the tensors belongs to the tensor
  library, which is not part of this model. Its contract leaves sites 1..N unspecified and
  its body changes only the centre. Collapse.Collapse states its result against the tensors
  as position(1) leaves them (its ghost `gauged`), so it holds for any gauge.
- Floating point is not modelled. Probabilities, times and couplings are exact reals. The
  thresholds 1E-12 and 1.00000001 are real constants, and `ISqrt2` is the exact symbol c
  with c·c = 1/2.
- `Global::random` becomes a stream of draws, all in [0, 1]. The `DEBUG`-only range check
  on a draw is therefore a precondition (Collapse.Rng.constructor), not an error path.
- Collapse.PositiveDrawPicksPositiveOutcome and Collapse.CrossingIsInterval: both are stated
  for draws r > 0 only. A draw of exactly 0 picks outcome 1 even when its probability is 0.
  The source then rescales by 1/sqrt(0). The model only records that p in the block.
- Trotter.MakeGates: the operator source `opf` is a pure function of (i1, i2, type). The
  source passes the stateful `HeisOps`, whose call-by-call results are modelled separately
  (HeisOps.KthOperator). The `Args` lookup of "Ancilla" is a boolean parameter.
- HeisOps.HeisOps.Apply: the site operators `sites_.op(...)` are symbolic names, and the
  `type` argument is unused by this model. Only the bounds-checked `putsite_.at` lookup is
  modelled as an error. Any check the site set makes on a site outside the lattice is part
  of the tensor library, which is not part of this model.
- RotateXZ.RotateXZ.constructor: the eight member vectors are filled site by site as local
  sequences and stored once. The tables are only read afterwards, so the in-place
  `.at(j) =` writes are not modelled as array updates.
- `BasisPtr` is a `unique_ptr` with a single owner. Ownership is not modelled: a basis is a
  value of the `Basis` record, or a `RotateXZ` object.
- Arguments (`Args`) are a map from names to reals. The display and debug printing is left
  out.
- The driver programs `triangular_metts.cc` and `mpo_ancilla.cc` are left out. They hold
  input parsing, MPO construction, library time evolution, statistics and file output.
