/**
 * Collapsing an MPS into a random product state (collapse.h), the sampling step of METTS.
 *
 * Sites are measured left to right. At site j the block carried from the left (the site
 * tensor itself at j = 1, afterwards the next site tensor with the measured sites contracted
 * in) gives the probabilities of outcomes 1..d-1 as overlaps with the basis projectors; the
 * last outcome takes whatever is left so that the probabilities sum to one. A draw r picks
 * the first outcome whose cumulative probability reaches r; the site is replaced by the
 * basis's newstate, and the chosen state is contracted into the next block, which is
 * rescaled by 1/sqrt(p) of the chosen outcome.
 *
 * Tensors are a type parameter and are never computed with: a carried block is the symbolic
 * record of how it was built, and the overlap of a block with a projector is a function
 * parameter.
 */
module Collapse {
  import opened Basis

  /** A computed probability above this (or below 0) is an error. */
  const ProbTolerance: real := 1.00000001

  /** The block carried from the left: a site tensor as read from the MPS, or the next site
      tensor with bra(state) · previous block contracted into it and rescaled by 1/sqrt(p). */
  datatype Block<T> = Site(a: T) | Absorb(next: T, bra: T, prev: Block<T>, p: real)

  /** The probabilities of one site, or the first projector overlap that was out of range. */
  datatype Measurement = Probabilities(prob: seq<real>) | OutOfRange(outcome: int, value: real)

  /** What collapse returns: the outcome of every site (slot 0 unused), or the error raised
      by an out-of-range probability. */
  datatype CollapseResult = Sampled(state: seq<int>) | ProbabilityOutOfRange(site: int, outcome: int, value: real)

  function Sum(s: seq<real>): real
  {
    if s == [] then 0.0 else Sum(s[..|s| - 1]) + s[|s| - 1]
  }

  /** The cumulative probability of outcomes 1..k. */
  function Cum(prob: seq<real>, k: int): real
    requires 0 <= k <= |prob|
  {
    Sum(prob[..k])
  }

  lemma CumStep(prob: seq<real>, k: int)
    requires 0 <= k < |prob|
    ensures Cum(prob, k + 1) == Cum(prob, k) + prob[k]
  {
    assert prob[..k + 1][..k] == prob[..k];
  }

  lemma CumAll(prob: seq<real>)
    ensures Cum(prob, |prob|) == Sum(prob)
  {
    assert prob[..|prob|] == prob;
  }

  /** The measured outcomes followed by the remainder 1 - (their total): whatever was
      measured, the completed probabilities sum to exactly one. */
  function Complete(ps: seq<real>): (r: seq<real>)
    ensures |r| == |ps| + 1 && r[..|ps|] == ps
    ensures Sum(r) == 1.0
  {
    var r := ps + [1.0 - Sum(ps)];
    assert r[..|r| - 1] == ps;
    r
  }

  predicate Plausible(p: real)
  {
    0.0 <= p <= ProbTolerance
  }

  /** The index of the first implausible value at or after position from, if any. */
  function FirstImplausible(ovl: seq<real>, from: nat): (r: int)
    requires from <= |ovl|
    ensures from <= r <= |ovl|
    ensures r < |ovl| ==> !Plausible(ovl[r])
    ensures forall s :: from <= s < r ==> Plausible(ovl[s])
    decreases |ovl| - from
  {
    if from == |ovl| then |ovl|
    else if !Plausible(ovl[from]) then from
    else FirstImplausible(ovl, from + 1)
  }

  /** The probabilities a site's measured overlaps give, or the first one out of range. */
  function Measure(ovl: seq<real>): (m: Measurement)
    ensures m.Probabilities? <==> forall s :: 0 <= s < |ovl| ==> Plausible(ovl[s])
    ensures m.Probabilities? ==> |m.prob| == |ovl| + 1 && Sum(m.prob) == 1.0
    ensures m.Probabilities? ==> forall s :: 0 <= s < |ovl| ==> m.prob[s] == ovl[s]
    ensures m.OutOfRange? ==> 1 <= m.outcome <= |ovl| && m.value == ovl[m.outcome - 1]
    ensures m.OutOfRange? ==> !Plausible(m.value)
    ensures m.OutOfRange? ==> forall s :: 0 <= s < m.outcome - 1 ==> Plausible(ovl[s])
  {
    var bad := FirstImplausible(ovl, 0);
    if bad == |ovl| then Probabilities(Complete(ovl)) else OutOfRange(bad + 1, ovl[bad])
  }

  /** The overlaps of outcomes 1..d-1 at site j. */
  function Overlaps<T>(B: Basis<T>, overlap: (Block<T>, T) -> real, j: int, blk: Block<T>, d: nat): (ovl: seq<real>)
    requires d >= 1
    ensures |ovl| == d - 1
  {
    seq(d - 1, s => overlap(blk, B.proj(j, s + 1)))
  }

  /** Entry s-1 of the overlaps is the block's overlap with the projector of outcome s. */
  lemma OverlapOfOutcome<T>(B: Basis<T>, overlap: (Block<T>, T) -> real, j: int, blk: Block<T>, d: nat, s: int)
    requires 1 <= s < d
    ensures Overlaps(B, overlap, j, blk, d)[s - 1] == overlap(blk, B.proj(j, s))
  {
  }

  /** st is the first outcome whose cumulative probability reaches r. */
  predicate IsFirstCrossing(prob: seq<real>, r: real, st: int)
  {
    && 1 <= st <= |prob|
    && r <= Cum(prob, st)
    && forall k :: 1 <= k < st ==> Cum(prob, k) < r
  }

  /** The outcome a draw picks: the walk up the cumulative probabilities. Any draw not above
      the total stops inside the table. */
  method SelectOutcome(prob: seq<real>, r: real) returns (st: int)
    requires |prob| >= 1 && r <= Sum(prob)
    ensures IsFirstCrossing(prob, r, st)
  {
    st := 1;
    var pdisc := prob[0];
    CumStep(prob, 0);
    CumAll(prob);
    while r > pdisc
      invariant 1 <= st <= |prob|
      invariant pdisc == Cum(prob, st)
      invariant forall k :: 1 <= k < st ==> Cum(prob, k) < r
      decreases |prob| - st
    {
      CumStep(prob, st);
      st := st + 1;
      pdisc := pdisc + prob[st - 1];
    }
  }

  /** The first crossing is unique: a draw determines the outcome. */
  lemma FirstCrossingUnique(prob: seq<real>, r: real, a: int, b: int)
    requires IsFirstCrossing(prob, r, a) && IsFirstCrossing(prob, r, b)
    ensures a == b
  {
  }

  /** A positive draw never picks an outcome of probability zero or less, so the rescaling
      by 1/sqrt(p) that follows is well defined. */
  lemma PositiveDrawPicksPositiveOutcome(prob: seq<real>, r: real, st: int)
    requires IsFirstCrossing(prob, r, st) && r > 0.0
    ensures prob[st - 1] > 0.0
  {
    CumStep(prob, st - 1);
    assert Cum(prob, 0) == 0.0;
  }

  /** A draw not above the first outcome's mass always picks outcome 1, and a larger one
      never does. */
  lemma FirstOutcomeIffDrawBelowItsMass(prob: seq<real>, r: real)
    requires |prob| >= 1
    ensures IsFirstCrossing(prob, r, 1) <==> r <= prob[0]
  {
    CumStep(prob, 0);
    assert Cum(prob, 0) == 0.0;
  }

  /** Two equally likely outcomes: draw 0.3 picks outcome 1 and draw 0.7 picks outcome 2. */
  lemma EvenSplitExample()
    ensures IsFirstCrossing([0.5, 0.5], 0.3, 1)
    ensures IsFirstCrossing([0.5, 0.5], 0.7, 2)
    ensures !IsFirstCrossing([0.5, 0.5], 0.7, 1)
  {
    var p := [0.5, 0.5];
    CumStep(p, 0);
    CumStep(p, 1);
    assert Cum(p, 0) == 0.0;
  }

  lemma {:induction false} CumMonotone(prob: seq<real>, a: int, b: int)
    requires 0 <= a <= b <= |prob|
    requires forall k :: 0 <= k < |prob| ==> prob[k] >= 0.0
    ensures Cum(prob, a) <= Cum(prob, b)
    decreases b - a
  {
    if a < b {
      CumStep(prob, b - 1);
      CumMonotone(prob, a, b - 1);
    }
  }

  /** With nonnegative probabilities a positive draw picks outcome k exactly when it lies in
      (Cum(k-1), Cum(k)], an interval of length prob[k-1]: outcome k is sampled with
      probability prob[k-1]. */
  lemma CrossingIsInterval(prob: seq<real>, r: real, k: int)
    requires 1 <= k <= |prob| && r > 0.0
    requires forall i :: 0 <= i < |prob| ==> prob[i] >= 0.0
    ensures IsFirstCrossing(prob, r, k) <==> Cum(prob, k - 1) < r <= Cum(prob, k)
    ensures Cum(prob, k) - Cum(prob, k - 1) == prob[k - 1]
  {
    CumStep(prob, k - 1);
    assert Cum(prob, 0) == 0.0;
    if Cum(prob, k - 1) < r <= Cum(prob, k) {
      forall m | 1 <= m < k
        ensures Cum(prob, m) < r
      {
        CumMonotone(prob, m, k - 1);
      }
    }
  }

  /** Global::random: a stream of draws in [0, 1]; each call takes the next one. */
  class Rng {
    const draws: nat -> real
    var pos: nat

    ghost predicate Valid()
    {
      forall i: nat :: 0.0 <= draws(i) <= 1.0
    }

    constructor (stream: nat -> real)
      requires forall i: nat :: 0.0 <= stream(i) <= 1.0
      ensures draws == stream && pos == 0 && Valid()
    {
      draws := stream;
      pos := 0;
    }

    method Next() returns (r: real)
      requires Valid()
      modifies this
      ensures r == draws(old(pos)) && pos == old(pos) + 1
      ensures 0.0 <= r <= 1.0
    {
      r := draws(pos);
      pos := pos + 1;
    }
  }

  /** The MPS as the collapse sees it: N sites of local dimension d, site tensors in slots
      1..N of a table that also holds the boundary slots 0 and N+1, and the position of the
      orthogonality centre. */
  class Mps<T> {
    const N: nat
    const d: nat
    const A: array<T>
    var center: int

    constructor (n: nat, dim: nat, tensors: array<T>)
      requires tensors.Length == n + 2
      ensures N == n && d == dim && A == tensors && center == 1
    {
      N, d, A := n, dim, tensors;
      center := 1;
    }

    /** position(k): moves the orthogonality centre to site k. The gauge transformation it
        performs may rewrite any site tensor 1..N; the boundary slots are left alone. */
    method Position(k: int)
      requires A.Length == N + 2
      modifies this, A
      ensures center == k
      ensures A[0] == old(A[0]) && A[N + 1] == old(A[N + 1])
    {
      center := k;
    }
  }

  /** The inner loop of one site: the overlaps of outcomes 1..d-1, each checked as it is
      computed, then the last outcome as 1 minus their total. */
  method MeasureSite<T>(B: Basis<T>, overlap: (Block<T>, T) -> real, j: int, blk: Block<T>, d: nat)
      returns (m: Measurement)
    requires d >= 1
    ensures m == Measure(Overlaps(B, overlap, j, blk, d))
  {
    ghost var ovl := Overlaps(B, overlap, j, blk, d);
    var prob := seq(d, _ => 0.0);
    var tot := 0.0;
    for s := 1 to d
      invariant |prob| == d
      invariant prob[..s - 1] == ovl[..s - 1]
      invariant tot == Sum(ovl[..s - 1])
      invariant forall k :: 0 <= k < s - 1 ==> Plausible(ovl[k])
    {
      var z := overlap(blk, B.proj(j, s));
      assert z == ovl[s - 1];
      prob := prob[s - 1 := z];
      if z > ProbTolerance || z < 0.0 {
        assert FirstImplausible(ovl, 0) == s - 1 by {
          FirstImplausibleIs(ovl, s - 1);
        }
        return OutOfRange(s, z);
      }
      assert ovl[..s][..s - 1] == ovl[..s - 1];
      tot := tot + prob[s - 1];
    }
    assert ovl[..d - 1] == ovl;
    prob := prob[d - 1 := 1.0 - tot];
    assert prob == Complete(ovl);
    FirstImplausibleIs(ovl, |ovl|);
    m := Probabilities(prob);
  }

  /** The first implausible index is the one the loop stops at. */
  lemma FirstImplausibleIs(ovl: seq<real>, i: int)
    requires 0 <= i <= |ovl|
    requires forall k :: 0 <= k < i ==> Plausible(ovl[k])
    requires i < |ovl| ==> !Plausible(ovl[i])
    ensures FirstImplausible(ovl, 0) == i
  {
  }

  /** Site j was collapsed: it had probabilities prob, the draw picked st as the first crossing,
      and its block was blk. */
  ghost predicate SiteSampled<T>(B: Basis<T>, overlap: (Block<T>, T) -> real, d: nat, j: int,
                                 blk: Block<T>, prob: seq<real>, r: real, st: int)
  {
    d >= 1 && Measure(Overlaps(B, overlap, j, blk, d)) == Probabilities(prob) && IsFirstCrossing(prob, r, st)
  }

  /** One pass of the sweep at site j: measure the block, and unless a probability is out of
      range take one draw, pick the outcome and overwrite the site with B's newstate. */
  method CollapseSite<T>(psi: Mps<T>, B: Basis<T>, rng: Rng, overlap: (Block<T>, T) -> real, j: int, blk: Block<T>)
      returns (m: Measurement, st: int)
    requires 1 <= j <= psi.N && psi.A.Length == psi.N + 2 && psi.d >= 1 && rng.Valid()
    modifies psi.A, rng
    ensures rng.Valid()
    ensures m == Measure(Overlaps(B, overlap, j, blk, psi.d))
    ensures m.OutOfRange? ==> rng.pos == old(rng.pos) && psi.A[..] == old(psi.A[..])
    ensures m.Probabilities? ==>
              && rng.pos == old(rng.pos) + 1
              && SiteSampled(B, overlap, psi.d, j, blk, m.prob, rng.draws(old(rng.pos)), st)
              && st <= psi.d
              && psi.A[..] == old(psi.A[..])[j := NewState(B, j, st)]
  {
    st := 1;
    m := MeasureSite(B, overlap, j, blk, psi.d);
    if m.OutOfRange? {
      return;
    }
    var r := rng.Next();
    CumAll(m.prob);
    st := SelectOutcome(m.prob, r);
    psi.A[j] := NewState(B, j, st);
  }

  /** Site k was sampled: it had the probabilities probs[k] measured on its block blocks[k],
      and draw pos0+k-1 picked state[k], an outcome in 1..d, as its first crossing. */
  ghost predicate SampledAt<T>(B: Basis<T>, overlap: (Block<T>, T) -> real, d: nat, draws: nat -> real, pos0: nat,
                               state: seq<int>, blocks: seq<Block<T>>, probs: seq<seq<real>>, k: int)
  {
    && 1 <= k < |state| && k < |blocks| && k < |probs|
    && SiteSampled(B, overlap, d, k, blocks[k], probs[k], draws(pos0 + k - 1), state[k]) && 1 <= state[k] <= d
  }

  /** Sites 1..j-1 were sampled. */
  ghost predicate SitesSampled<T>(B: Basis<T>, overlap: (Block<T>, T) -> real, d: nat, draws: nat -> real, pos0: nat,
                                  state: seq<int>, blocks: seq<Block<T>>, probs: seq<seq<real>>, j: int)
  {
    && 1 <= j <= |state| && j <= |blocks| && j <= |probs|
    && forall k :: 1 <= k < j ==> SampledAt(B, overlap, d, draws, pos0, state, blocks, probs, k)
  }

  /** Site k of A holds B's newstate for its chosen outcome. */
  ghost predicate WrittenAt<T>(B: Basis<T>, A: seq<T>, state: seq<int>, k: int)
  {
    0 <= k < |state| && k < |A| && A[k] == NewState(B, k, state[k])
  }

  /** Sites 1..j-1 of A hold B's newstate for their chosen outcome. */
  ghost predicate Written<T>(B: Basis<T>, A: seq<T>, state: seq<int>, j: int)
  {
    1 <= j <= |state| && j <= |A| && forall k :: 1 <= k < j ==> WrittenAt(B, A, state, k)
  }

  /** Block k+1 is site k+1's original tensor with site k's chosen state absorbed into block k
      and rescaled by the chosen probability. */
  ghost predicate ChainedAt<T>(B: Basis<T>, A0: seq<T>, state: seq<int>, blocks: seq<Block<T>>,
                               probs: seq<seq<real>>, k: int)
  {
    && 0 <= k < |state| && k + 1 < |A0| && k + 1 < |blocks| && k < |probs|
    && 1 <= state[k] <= |probs[k]|
    && blocks[k + 1] == Absorb(A0[k + 1], B.state(k, state[k]), blocks[k], probs[k][state[k] - 1])
  }

  /** Each block after the first, up to block j, follows from the one before it. */
  ghost predicate Chained<T>(B: Basis<T>, A0: seq<T>, N: nat, state: seq<int>, blocks: seq<Block<T>>,
                             probs: seq<seq<real>>, j: int)
  {
    && 1 <= j <= |state| && |A0| == |blocks| == N + 2 && j <= |probs|
    && forall k :: 1 <= k < j && k < N ==> ChainedAt(B, A0, state, blocks, probs, k)
  }

  /** Sites 1..j-1 are collapsed: sampled, re-seeded in A and chained block to block. */
  ghost predicate SitesDone<T>(B: Basis<T>, overlap: (Block<T>, T) -> real, d: nat, N: nat,
                               draws: nat -> real, pos0: nat, A0: seq<T>, A: seq<T>,
                               state: seq<int>, blocks: seq<Block<T>>, probs: seq<seq<real>>, j: int)
  {
    && |A0| == |A| == N + 2 && |state| == N + 1 && |blocks| == |probs| == N + 2 && 1 <= j <= N + 1
    && SitesSampled(B, overlap, d, draws, pos0, state, blocks, probs, j)
    && Written(B, A, state, j)
    && Chained(B, A0, N, state, blocks, probs, j)
  }

  lemma SitesSampledStep<T>(B: Basis<T>, overlap: (Block<T>, T) -> real, d: nat, draws: nat -> real, pos0: nat,
                            state: seq<int>, blocks: seq<Block<T>>, blocks': seq<Block<T>>, probs: seq<seq<real>>,
                            j: int, prob: seq<real>, st: int)
    requires SitesSampled(B, overlap, d, draws, pos0, state, blocks, probs, j) && j < |state| && j < |probs|
    requires j < |blocks| == |blocks'| && blocks'[..j + 1] == blocks[..j + 1]
    requires SiteSampled(B, overlap, d, j, blocks[j], prob, draws(pos0 + j - 1), st) && 1 <= st <= d
    ensures SitesSampled(B, overlap, d, draws, pos0, state[j := st], blocks', probs[j := prob], j + 1)
  {
    var state', probs' := state[j := st], probs[j := prob];
    forall k | 1 <= k < j + 1
      ensures SampledAt(B, overlap, d, draws, pos0, state', blocks', probs', k)
    {
      assert blocks'[k] == blocks'[..j + 1][k] == blocks[..j + 1][k] == blocks[k];
      if k < j {
        assert SampledAt(B, overlap, d, draws, pos0, state, blocks, probs, k);
        assert probs'[k] == probs[k] && state'[k] == state[k];
      }
    }
  }

  lemma WrittenStep<T>(B: Basis<T>, A: seq<T>, state: seq<int>, j: int, st: int)
    requires Written(B, A, state, j) && j < |state| && j < |A|
    ensures Written(B, A[j := NewState(B, j, st)], state[j := st], j + 1)
  {
    var A', state' := A[j := NewState(B, j, st)], state[j := st];
    forall k | 1 <= k < j + 1
      ensures WrittenAt(B, A', state', k)
    {
      if k < j {
        assert WrittenAt(B, A, state, k);
        assert A'[k] == A[k] && state'[k] == state[k];
      }
    }
  }

  lemma ChainedStep<T>(B: Basis<T>, A0: seq<T>, N: nat, state: seq<int>, blocks: seq<Block<T>>,
                       probs: seq<seq<real>>, j: int, prob: seq<real>, st: int)
    requires Chained(B, A0, N, state, blocks, probs, j) && j <= N && j < |state| && j < |probs|
    requires 1 <= st <= |prob|
    ensures Chained(B, A0, N, state[j := st],
                    if j < N then blocks[j + 1 := Absorb(A0[j + 1], B.state(j, st), blocks[j], prob[st - 1])] else blocks,
                    probs[j := prob], j + 1)
  {
    var state', probs' := state[j := st], probs[j := prob];
    var blocks' := if j < N then blocks[j + 1 := Absorb(A0[j + 1], B.state(j, st), blocks[j], prob[st - 1])] else blocks;
    forall k | 1 <= k < j + 1 && k < N
      ensures ChainedAt(B, A0, state', blocks', probs', k)
    {
      if k < j {
        assert ChainedAt(B, A0, state, blocks, probs, k);
        assert blocks'[k] == blocks[k] && blocks'[k + 1] == blocks[k + 1];
        assert probs'[k] == probs[k] && state'[k] == state[k];
      }
    }
  }

  /** With a basis that keeps the default newstate, every collapsed site (before the last)
      holds exactly the state that was contracted into the next site's block. */
  lemma DefaultNewStateIsContractedState<T>(B: Basis<T>, overlap: (Block<T>, T) -> real, d: nat, N: nat,
                                            draws: nat -> real, pos0: nat, A0: seq<T>, A: seq<T>,
                                            state: seq<int>, blocks: seq<Block<T>>, probs: seq<seq<real>>,
                                            j: int, k: int)
    requires SitesDone(B, overlap, d, N, draws, pos0, A0, A, state, blocks, probs, j)
    requires B.newstateOverride.None? && 1 <= k < j && k < N
    ensures blocks[k + 1].Absorb? && A[k] == blocks[k + 1].bra
  {
    assert WrittenAt(B, A, state, k);
    assert ChainedAt(B, A0, state, blocks, probs, k);
  }

  /** Collapsing site j extends the collapsed prefix by one site. */
  lemma SitesDoneStep<T>(B: Basis<T>, overlap: (Block<T>, T) -> real, d: nat, N: nat,
                         draws: nat -> real, pos0: nat, A0: seq<T>, A: seq<T>,
                         state: seq<int>, blocks: seq<Block<T>>, probs: seq<seq<real>>, j: int,
                         prob: seq<real>, st: int)
    requires SitesDone(B, overlap, d, N, draws, pos0, A0, A, state, blocks, probs, j) && j <= N
    requires SiteSampled(B, overlap, d, j, blocks[j], prob, draws(pos0 + j - 1), st) && 1 <= st <= d
    ensures SitesDone(B, overlap, d, N, draws, pos0, A0, A[j := NewState(B, j, st)], state[j := st],
                      if j < N then blocks[j + 1 := Absorb(A0[j + 1], B.state(j, st), blocks[j], prob[st - 1])] else blocks,
                      probs[j := prob], j + 1)
  {
    assert 1 <= st <= |prob|;
    var blocks' := if j < N then blocks[j + 1 := Absorb(A0[j + 1], B.state(j, st), blocks[j], prob[st - 1])] else blocks;
    assert blocks'[..j + 1] == blocks[..j + 1];
    SitesSampledStep(B, overlap, d, draws, pos0, state, blocks, blocks', probs, j, prob, st);
    WrittenStep(B, A, state, j, st);
    ChainedStep(B, A0, N, state, blocks, probs, j, prob, st);
  }

  /** Sites j.. of A still hold the tensors of A0. */
  ghost predicate Untouched<T>(A0: seq<T>, A: seq<T>, j: int)
  {
    |A| == |A0| && forall k :: 0 <= j <= k < |A| ==> A[k] == A0[k]
  }

  lemma UntouchedStep<T>(A0: seq<T>, A: seq<T>, j: int, x: T)
    requires Untouched(A0, A, j) && 0 <= j < |A|
    ensures Untouched(A0, A[j := x], j + 1)
  {
  }

  /** collapse(psi, B): samples every site left to right with one draw per site, reading
      the tensors as position(1) leaves them (gauged). On success every site is collapsed as
      SitesDone states, with its outcome in 1..d and draw j used for site j. On an
      out-of-range probability at site j the sites before j are already collapsed, the draws
      for j..N were not taken and sites j..N still hold their gauged tensors. */
  method Collapse<T>(psi: Mps<T>, B: Basis<T>, rng: Rng, overlap: (Block<T>, T) -> real)
      returns (res: CollapseResult, ghost gauged: seq<T>, ghost outcomes: seq<int>,
               ghost blocks: seq<Block<T>>, ghost probs: seq<seq<real>>)
    requires psi.A.Length == psi.N + 2 && psi.d >= 1 && rng.Valid()
    modifies psi, psi.A, rng
    ensures psi.center == 1
    ensures |gauged| == psi.N + 2 && gauged[0] == old(psi.A[0]) && gauged[psi.N + 1] == old(psi.A[psi.N + 1])
    ensures psi.A[0] == old(psi.A[0]) && psi.A[psi.N + 1] == old(psi.A[psi.N + 1])
    ensures |blocks| == psi.N + 2 && blocks[1] == Site(gauged[1])
    ensures |outcomes| == psi.N + 1 && outcomes[0] == 0
    ensures res.Sampled? ==>
              && res.state == outcomes
              && rng.pos == old(rng.pos) + psi.N
              && SitesDone(B, overlap, psi.d, psi.N, rng.draws, old(rng.pos), gauged, psi.A[..],
                           outcomes, blocks, probs, psi.N + 1)
    ensures res.ProbabilityOutOfRange? ==>
              && 1 <= res.site <= psi.N
              && Measure(Overlaps(B, overlap, res.site, blocks[res.site], psi.d)) == OutOfRange(res.outcome, res.value)
              && rng.pos == old(rng.pos) + res.site - 1
              && Untouched(gauged, psi.A[..], res.site)
              && SitesDone(B, overlap, psi.d, psi.N, rng.draws, old(rng.pos), gauged, psi.A[..],
                           outcomes, blocks, probs, res.site)
  {
    ghost var pos0 := rng.pos;
    var N, d := psi.N, psi.d;
    var state := seq(N + 1, _ => 0);
    psi.Position(1);
    ghost var A0 := psi.A[..];
    gauged := A0;
    var aj1: Block<T> := Site(psi.A[1]);
    blocks := seq(N + 2, _ => aj1);
    probs := seq(N + 2, _ => []);
    for j := 1 to N + 1
      invariant psi.center == 1 && rng.Valid() && rng.pos == pos0 + j - 1
      invariant SitesDone(B, overlap, d, N, rng.draws, pos0, A0, psi.A[..], state, blocks, probs, j)
      invariant state[0] == 0 && blocks[1] == Site(A0[1])
      invariant j <= N ==> aj1 == blocks[j]
      invariant psi.A[0] == A0[0] && Untouched(A0, psi.A[..], j)
    {
      var aj2: Block<T> := Site(psi.A[j + 1]);
      ghost var A := psi.A[..];
      var m, st := CollapseSite(psi, B, rng, overlap, j, aj1);
      if m.OutOfRange? {
        return ProbabilityOutOfRange(j, m.outcome, m.value), gauged, state, blocks, probs;
      }
      var prob := m.prob;
      SitesDoneStep(B, overlap, d, N, rng.draws, pos0, A0, A, state, blocks, probs, j, prob, st);
      UntouchedStep(A0, A, j, NewState(B, j, st));
      state := state[j := st];
      probs := probs[j := prob];
      if j < N {
        aj2 := Absorb(aj2.a, B.state(j, st), aj1, prob[st - 1]);
        blocks := blocks[j + 1 := aj2];
      }
      aj1 := aj2;
    }
    res := Sampled(state);
    outcomes := state;
  }
}
