/**
 * Second-order Trotter gate lists (trotter.h).
 *
 * makeGates turns an ordered bond list into a list of two-site gates acting on adjacent
 * positions of the chain, mirrors that list into forward ++ reverse(forward), and hands it
 * to cleanGates, which erases adjacent identical Swap pairs until none is left.
 * The bond operators are opaque values of type H; their norm is a caller-supplied function.
 */
module Trotter {
  import opened Wrappers

  /** A lattice bond: two sites and a coupling label passed verbatim to the operator source. */
  datatype Bond<T> = Bond(s1: int, s2: int, kind: T)

  /** The operator an evolution gate exponentiates: the one the operator source returned, or
      that operator conjugated by the tensor that renames site `from`'s index to site `onto`'s. */
  datatype GateOp<H> = Plain(h: H) | Relabelled(h: H, from: int, onto: int)

  /** A gate on two adjacent positions: a transposition of their site indices, or
      imaginary-time evolution by time t under the operator op. */
  datatype Gate<H> = Swap(i1: int, i2: int) | Evol(i1: int, i2: int, t: real, op: GateOp<H>)

  /** A bond whose operator has norm below this bound (1E-12) contributes no gate. */
  const NormCutoff: real := 0.000000000001

  function Abs(x: int): nat
  {
    if x < 0 then -x else x
  }

  /** Every gate of the list acts on two adjacent positions. */
  predicate AllAdjacent<H>(gs: seq<Gate<H>>)
  {
    forall k | 0 <= k < |gs| :: Abs(gs[k].i2 - gs[k].i1) == 1
  }

  /** Positions (i1, i2) a bond's operator is placed on. In ancilla mode logical site s
      occupies positions 2s-1 (the physical copy) and 2s (its purification ancilla). */
  function Placement<T>(b: Bond<T>, ancilla: bool): (r: (int, int))
    ensures !ancilla ==> r == (b.s1, b.s2)
    ensures ancilla ==> r.1 - r.0 == 2 * (b.s2 - b.s1) && r.0 % 2 == 1 && r.1 % 2 == 1
  {
    if ancilla then (2 * b.s1 - 1, 2 * b.s2 - 1) else (b.s1, b.s2)
  }

  /** Number of swaps that bring position i1 next to position i2 (none when i2 <= i1 + 1). */
  function ChainLength(i1: int, i2: int): nat
  {
    if i2 - 1 <= i1 then 0 else i2 - 1 - i1
  }

  /** Swap(k, k+1) for k = lo, lo+1, ..., hi; empty when hi < lo. */
  function UpChain<H>(lo: int, hi: int): seq<Gate<H>>
  {
    seq(if hi < lo then 0 else hi - lo + 1, t => Swap(lo + t, lo + t + 1))
  }

  /** Swap(k, k+1) for k = hi, hi-1, ..., lo; empty when hi < lo. */
  function DownChain<H>(lo: int, hi: int): seq<Gate<H>>
  {
    seq(if hi < lo then 0 else hi - lo + 1, t => Swap(hi - t, hi - t + 1))
  }

  function Reverse<X>(s: seq<X>): seq<X>
  {
    seq(|s|, t requires 0 <= t < |s| => s[|s| - 1 - t])
  }

  /** The gates one bond at positions (i1, i2) with operator hh contributes to the forward
      half-step. A non-adjacent bond (including i2 <= i1, where both swap loops are empty)
      gets its evolution gate on (i2-1, i2). */
  function BondGates<H>(i1: int, i2: int, hh: H, tau: real, norm: H -> real): (r: seq<Gate<H>>)
    ensures r == [] <==> norm(hh) < NormCutoff
    ensures AllAdjacent(r)
  {
    if norm(hh) < NormCutoff then []
    else if Abs(i2 - i1) == 1 then [Evol(i1, i2, tau / 2.0, Plain(hh))]
    else UpChain(i1, i2 - 2) + [Evol(i2 - 1, i2, tau / 2.0, Relabelled(hh, i1, i2 - 1))]
         + DownChain(i1, i2 - 2)
  }

  function GatesOfBond<T, H>(b: Bond<T>, tau: real, opf: (int, int, T) -> H, norm: H -> real,
                             ancilla: bool): seq<Gate<H>>
  {
    var (i1, i2) := Placement(b, ancilla);
    BondGates(i1, i2, opf(i1, i2, b.kind), tau, norm)
  }

  /** The forward half of the step: every bond's gates, in bond order. */
  function Forward<T, H>(bonds: seq<Bond<T>>, tau: real, opf: (int, int, T) -> H,
                         norm: H -> real, ancilla: bool): (r: seq<Gate<H>>)
    ensures AllAdjacent(r)
  {
    if bonds == [] then []
    else Forward(bonds[..|bonds| - 1], tau, opf, norm, ancilla)
         + GatesOfBond(bonds[|bonds| - 1], tau, opf, norm, ancilla)
  }

  /** b1 b2 ... bn bn ... b2 b1: the symmetric second-order decomposition. The list is twice
      as long as the forward half, starts with it and reads the same backwards. */
  function Mirror<H>(f: seq<Gate<H>>): (r: seq<Gate<H>>)
    ensures |r| == 2 * |f| && r[..|f|] == f
    ensures Reverse(r) == r
  {
    var r := f + Reverse(f);
    assert Reverse(r) == r by {
      forall i | 0 <= i < |r|
        ensures Reverse(r)[i] == r[i]
      {
        if i < |f| {
          assert Reverse(r)[i] == Reverse(f)[|f| - 1 - i];
        }
      }
    }
    r
  }

  /** Entries i and i+1 are Swap gates on the same two positions. The last entry has no
      successor and so starts no pair. */
  predicate CancelsAt<H>(g: seq<Gate<H>>, i: int)
  {
    0 <= i && i + 1 < |g| && g[i].Swap? && g[i + 1].Swap?
    && g[i].i1 == g[i + 1].i1 && g[i].i2 == g[i + 1].i2
  }

  predicate NoCancellingPair<H>(g: seq<Gate<H>>)
  {
    forall i :: 0 <= i < |g| ==> !CancelsAt(g, i)
  }

  /** The leftmost index at or after `from` where a cancelling pair starts, if any. */
  function FirstPairFrom<H>(g: seq<Gate<H>>, from: nat): (r: Option<nat>)
    ensures r.Some? ==> from <= r.value && CancelsAt(g, r.value)
    ensures r.Some? ==> forall i :: from <= i < r.value ==> !CancelsAt(g, i)
    ensures r.None? ==> forall i :: from <= i ==> !CancelsAt(g, i)
    decreases |g| - from
  {
    if from + 1 >= |g| then None
    else if CancelsAt(g, from) then Some(from)
    else FirstPairFrom(g, from + 1)
  }

  /** cleanGates: erase the leftmost cancelling pair until there is none. */
  function Clean<H>(g: seq<Gate<H>>): (r: seq<Gate<H>>)
    ensures NoCancellingPair(r)
    decreases |g|
  {
    match FirstPairFrom(g, 0)
    case None => g
    case Some(i) => Clean(g[..i] + g[i + 2..])
  }

  /** The evolution gates of g, in order. */
  function Evols<H>(g: seq<Gate<H>>): seq<Gate<H>>
  {
    if g == [] then [] else (if g[0].Evol? then [g[0]] else []) + Evols(g[1..])
  }

  /** Where the site index sitting at position p is after gate x. */
  function Moved<H>(p: int, x: Gate<H>): int
  {
    if x.Swap? then (if p == x.i1 then x.i2 else if p == x.i2 then x.i1 else p) else p
  }

  /** Where the site index sitting at position p is after the gates gs, applied in order. */
  function Track<H>(p: int, gs: seq<Gate<H>>): int
    decreases |gs|
  {
    if gs == [] then p else Track(Moved(p, gs[0]), gs[1..])
  }

  /** Number of bonds whose operator is not negligible. */
  function Kept<T, H>(bonds: seq<Bond<T>>, opf: (int, int, T) -> H, norm: H -> real,
                      ancilla: bool): nat
  {
    if bonds == [] then 0
    else
      var b := bonds[|bonds| - 1];
      var (i1, i2) := Placement(b, ancilla);
      Kept(bonds[..|bonds| - 1], opf, norm, ancilla)
      + (if norm(opf(i1, i2, b.kind)) < NormCutoff then 0 else 1)
  }

  // ----- Placement and the gates of one bond -----

  /** In ancilla mode a bond lands on the odd (physical) positions 2s-1, and two distinct
      logical sites are never adjacent there, so every such bond goes through a swap network. */
  lemma AncillaPlacement<T>(b: Bond<T>)
    ensures Placement(b, true).0 == 2 * b.s1 - 1 && Placement(b, true).1 == 2 * b.s2 - 1
    ensures Placement(b, true).0 % 2 == 1 && Placement(b, true).1 % 2 == 1
    ensures Abs(Placement(b, true).1 - Placement(b, true).0) != 1
    ensures Placement(b, false) == (b.s1, b.s2)
  {
  }

  /** The back chain of a swap network is the front chain reversed. */
  lemma DownChainIsReversedUpChain<H>(lo: int, hi: int)
    ensures DownChain<H>(lo, hi) == Reverse(UpChain<H>(lo, hi))
  {
  }

  /** What one bond contributes: nothing for a negligible operator, one evolution gate at
      half time on (i1, i2) for an adjacent pair, and otherwise n swaps, the evolution gate
      on (i2-1, i2) with the relabelled operator, and the n swaps reversed. */
  lemma BondGatesShape<H>(i1: int, i2: int, hh: H, tau: real, norm: H -> real)
    ensures norm(hh) < NormCutoff ==> BondGates(i1, i2, hh, tau, norm) == []
    ensures norm(hh) >= NormCutoff && Abs(i2 - i1) == 1 ==>
              BondGates(i1, i2, hh, tau, norm) == [Evol(i1, i2, tau / 2.0, Plain(hh))]
    ensures norm(hh) >= NormCutoff && Abs(i2 - i1) != 1 ==>
              var g, n := BondGates(i1, i2, hh, tau, norm), ChainLength(i1, i2);
              && |g| == 2 * n + 1
              && (forall t :: 0 <= t < n ==> g[t] == Swap(i1 + t, i1 + t + 1))
              && g[n] == Evol(i2 - 1, i2, tau / 2.0, Relabelled(hh, i1, i2 - 1))
              && g[n + 1..] == Reverse(g[..n])
  {
    if norm(hh) >= NormCutoff && Abs(i2 - i1) != 1 {
      var g, n := BondGates(i1, i2, hh, tau, norm), ChainLength(i1, i2);
      assert g[..n] == UpChain(i1, i2 - 2);
      assert g[n + 1..] == DownChain(i1, i2 - 2);
      DownChainIsReversedUpChain<H>(i1, i2 - 2);
    }
  }

  // ----- The swap network routes the bond's sites -----

  lemma {:induction false} TrackAppend<H>(p: int, a: seq<Gate<H>>, b: seq<Gate<H>>)
    ensures Track(p, a + b) == Track(Track(p, a), b)
    decreases |a|
  {
    if a != [] {
      assert (a + b)[0] == a[0] && (a + b)[1..] == a[1..] + b;
      TrackAppend(Moved(p, a[0]), a[1..], b);
    } else {
      assert a + b == b;
    }
  }

  /** Undoing the gates in reverse order puts every site index back. */
  lemma {:induction false} TrackUndo<H>(p: int, s: seq<Gate<H>>)
    ensures Track(Track(p, s), Reverse(s)) == p
    decreases |s|
  {
    if s != [] {
      var q := Moved(p, s[0]);
      assert Reverse(s) == Reverse(s[1..]) + [s[0]];
      TrackUndo(q, s[1..]);
      TrackAppend(Track(q, s[1..]), Reverse(s[1..]), [s[0]]);
    }
  }

  /** The ascending chain from lo to hi carries the index at lo to hi + 1. */
  lemma {:induction false} UpChainCarries<H>(lo: int, hi: int)
    requires lo <= hi + 1
    ensures Track(lo, UpChain<H>(lo, hi)) == hi + 1
    decreases hi - lo + 1
  {
    if lo <= hi {
      assert UpChain<H>(lo, hi)[1..] == UpChain<H>(lo + 1, hi);
      UpChainCarries<H>(lo + 1, hi);
    }
  }

  /** The ascending chain from lo to hi leaves positions outside lo..hi+1 alone. */
  lemma {:induction false} UpChainSkips<H>(lo: int, hi: int, p: int)
    requires p < lo || hi + 1 < p
    ensures Track(p, UpChain<H>(lo, hi)) == p
    decreases if hi < lo then 0 else hi - lo + 1
  {
    if lo <= hi {
      assert UpChain<H>(lo, hi)[1..] == UpChain<H>(lo + 1, hi);
      UpChainSkips<H>(lo + 1, hi, p);
    }
  }

  /** For a bond with i1 + 1 < i2, the front swaps bring site i1's index to position i2 - 1,
      right next to site i2's, which stays put, so the evolution gate acts on the bond's two
      sites; and the whole contribution returns every index to where it started. */
  lemma SwapNetworkRoutes<H>(i1: int, i2: int, hh: H, tau: real, norm: H -> real)
    requires norm(hh) >= NormCutoff && i1 + 1 < i2
    ensures var g, n := BondGates(i1, i2, hh, tau, norm), ChainLength(i1, i2);
            && Track(i1, g[..n]) == i2 - 1
            && Track(i2, g[..n]) == i2
            && forall p :: Track(p, g) == p
  {
    var g, n := BondGates(i1, i2, hh, tau, norm), ChainLength(i1, i2);
    var up: seq<Gate<H>> := UpChain(i1, i2 - 2);
    var e := Evol(i2 - 1, i2, tau / 2.0, Relabelled(hh, i1, i2 - 1));
    assert g[..n] == up;
    UpChainCarries<H>(i1, i2 - 2);
    UpChainSkips<H>(i1, i2 - 2, i2);
    DownChainIsReversedUpChain<H>(i1, i2 - 2);
    assert g == up + ([e] + Reverse(up));
    forall p
      ensures Track(p, g) == p
    {
      TrackAppend(p, up, [e] + Reverse(up));
      TrackAppend(Track(p, up), [e], Reverse(up));
      TrackUndo(p, up);
    }
  }

  // ----- Evolution gates of the forward list -----

  lemma {:induction false} EvolsAppend<H>(a: seq<Gate<H>>, b: seq<Gate<H>>)
    ensures Evols(a + b) == Evols(a) + Evols(b)
    decreases |a|
  {
    if a != [] {
      assert (a + b)[0] == a[0] && (a + b)[1..] == a[1..] + b;
      EvolsAppend(a[1..], b);
    } else {
      assert a + b == b;
    }
  }

  /** Every bond with a non-negligible operator contributes exactly one evolution gate. */
  lemma {:induction false} ForwardEvolCount<T, H>(bonds: seq<Bond<T>>, tau: real,
                                                  opf: (int, int, T) -> H, norm: H -> real,
                                                  ancilla: bool)
    ensures |Evols(Forward(bonds, tau, opf, norm, ancilla))| == Kept(bonds, opf, norm, ancilla)
    decreases |bonds|
  {
    if bonds != [] {
      var b := bonds[|bonds| - 1];
      var (i1, i2) := Placement(b, ancilla);
      var hh := opf(i1, i2, b.kind);
      ForwardEvolCount(bonds[..|bonds| - 1], tau, opf, norm, ancilla);
      EvolsAppend(Forward(bonds[..|bonds| - 1], tau, opf, norm, ancilla),
                  GatesOfBond(b, tau, opf, norm, ancilla));
      if norm(hh) >= NormCutoff && Abs(i2 - i1) != 1 {
        var up: seq<Gate<H>> := UpChain(i1, i2 - 2);
        var e := Evol(i2 - 1, i2, tau / 2.0, Relabelled(hh, i1, i2 - 1));
        SwapsHaveNoEvols(up);
        SwapsHaveNoEvols(DownChain<H>(i1, i2 - 2));
        EvolsAppend(up, [e]);
        EvolsAppend(up + [e], DownChain<H>(i1, i2 - 2));
      }
    }
  }

  lemma {:induction false} SwapsHaveNoEvols<H>(g: seq<Gate<H>>)
    requires forall i :: 0 <= i < |g| ==> g[i].Swap?
    ensures Evols(g) == []
    decreases |g|
  {
    if g != [] {
      SwapsHaveNoEvols(g[1..]);
    }
  }

  // ----- cleanGates -----

  /** Without a cancelling pair, cleaning changes nothing. */
  lemma CleanKeepsClean<H>(g: seq<Gate<H>>)
    requires NoCancellingPair(g)
    ensures Clean(g) == g
  {
  }

  /** Cleaning twice is cleaning once. */
  lemma CleanIdempotent<H>(g: seq<Gate<H>>)
    ensures Clean(Clean(g)) == Clean(g)
  {
    CleanKeepsClean(Clean(g));
  }

  /** Each pass removes two entries, so the length only shrinks and keeps its parity. */
  lemma {:induction false} CleanLength<H>(g: seq<Gate<H>>)
    ensures |Clean(g)| <= |g| && |Clean(g)| % 2 == |g| % 2
    decreases |g|
  {
    match FirstPairFrom(g, 0)
    case None =>
    case Some(i) =>
      CleanLength(g[..i] + g[i + 2..]);
  }

  /** No evolution gate is removed and the evolution gates keep their order. */
  lemma {:induction false} CleanKeepsEvols<H>(g: seq<Gate<H>>)
    ensures Evols(Clean(g)) == Evols(g)
    decreases |g|
  {
    match FirstPairFrom(g, 0)
    case None =>
    case Some(i) =>
      var g' := g[..i] + g[i + 2..];
      CleanKeepsEvols(g');
      assert g == g[..i] + (g[i..i + 2] + g[i + 2..]);
      EvolsAppend(g[..i], g[i..i + 2] + g[i + 2..]);
      EvolsAppend(g[i..i + 2], g[i + 2..]);
      SwapsHaveNoEvols(g[i..i + 2]);
      EvolsAppend(g[..i], g[i + 2..]);
  }

  /** Position q of g with the pair at i, i+1 erased is position Lift(q, i) of g. */
  function Lift(q: nat, i: nat): nat
  {
    if q < i then q else q + 2
  }

  /** r is g with some entries dropped: idx lists, in increasing order, the positions of g
      that survive, and every dropped entry is a Swap gate. */
  ghost predicate Selects<H>(g: seq<Gate<H>>, r: seq<Gate<H>>, idx: seq<nat>)
  {
    && |idx| == |r|
    && (forall k :: 0 <= k < |idx| ==> idx[k] < |g| && r[k] == g[idx[k]])
    && (forall k, l :: 0 <= k < l < |idx| ==> idx[k] < idx[l])
    && (forall p :: 0 <= p < |g| && p !in idx ==> g[p].Swap?)
  }

  /** A selection from g with the Swap pair at i erased is a selection from g. */
  lemma LiftSelection<H>(g: seq<Gate<H>>, i: nat, r: seq<Gate<H>>, inner: seq<nat>)
    returns (idx: seq<nat>)
    requires CancelsAt(g, i)
    requires Selects(g[..i] + g[i + 2..], r, inner)
    ensures Selects(g, r, idx)
  {
    var g' := g[..i] + g[i + 2..];
    idx := seq(|inner|, k requires 0 <= k < |inner| => Lift(inner[k], i));
    forall k | 0 <= k < |idx|
      ensures idx[k] < |g| && r[k] == g[idx[k]]
    {
      assert g'[inner[k]] == g[Lift(inner[k], i)];
    }
    forall p | 0 <= p < |g| && p !in idx
      ensures g[p].Swap?
    {
      if p != i && p != i + 1 {
        var q: nat := if p < i then p else p - 2;
        assert g'[q] == g[p];
        forall k | 0 <= k < |inner|
          ensures inner[k] != q
        {
          assert idx[k] == Lift(inner[k], i);
        }
      }
    }
  }

  /** The survivors of cleaning are entries of g in their original order, and every entry
      that was dropped is a Swap gate. */
  lemma {:induction false} CleanSelects<H>(g: seq<Gate<H>>) returns (idx: seq<nat>)
    ensures Selects(g, Clean(g), idx)
    decreases |g|
  {
    match FirstPairFrom(g, 0)
    case None =>
      idx := seq(|g|, k => k);
    case Some(i) =>
      var inner := CleanSelects(g[..i] + g[i + 2..]);
      idx := LiftSelection(g, i, Clean(g), inner);
  }

  /** A single bond (1, 4): two swaps bring site 1 next to site 4, and after mirroring the
      doubled swaps in the middle cancel, leaving both evolution gates side by side. */
  lemma DistantBondExample<H>(hh: H, tau: real, norm: H -> real)
    requires norm(hh) >= NormCutoff
    ensures var e := Evol(3, 4, tau / 2.0, Relabelled(hh, 1, 3));
            Clean(Mirror(BondGates(1, 4, hh, tau, norm)))
              == [Swap(1, 2), Swap(2, 3), e, e, Swap(2, 3), Swap(1, 2)]
  {
    var e := Evol(3, 4, tau / 2.0, Relabelled(hh, 1, 3));
    DistantBondMirrored(hh, tau, norm);
    DistantBondCleaned(e);
  }

  lemma DistantBondMirrored<H>(hh: H, tau: real, norm: H -> real)
    requires norm(hh) >= NormCutoff
    ensures var e := Evol(3, 4, tau / 2.0, Relabelled(hh, 1, 3));
            Mirror(BondGates(1, 4, hh, tau, norm))
              == [Swap(1, 2), Swap(2, 3), e, Swap(2, 3), Swap(1, 2), Swap(1, 2), Swap(2, 3), e, Swap(2, 3), Swap(1, 2)]
  {
    var e := Evol(3, 4, tau / 2.0, Relabelled(hh, 1, 3));
    var f := [Swap(1, 2), Swap(2, 3), e, Swap(2, 3), Swap(1, 2)];
    DistantBondGates(hh, tau, norm);
    assert Reverse(f) == f;
  }

  lemma DistantBondGates<H>(hh: H, tau: real, norm: H -> real)
    requires norm(hh) >= NormCutoff
    ensures var e := Evol(3, 4, tau / 2.0, Relabelled(hh, 1, 3));
            BondGates(1, 4, hh, tau, norm) == [Swap(1, 2), Swap(2, 3), e, Swap(2, 3), Swap(1, 2)]
  {
    assert UpChain<H>(1, 2) == [Swap(1, 2), Swap(2, 3)];
    assert DownChain<H>(1, 2) == [Swap(2, 3), Swap(1, 2)];
  }

  /** The two cleaning passes over the mirrored list of bond (1, 4). */
  lemma DistantBondCleaned<H>(e: Gate<H>)
    requires e.Evol?
    ensures Clean([Swap(1, 2), Swap(2, 3), e, Swap(2, 3), Swap(1, 2), Swap(1, 2), Swap(2, 3), e, Swap(2, 3), Swap(1, 2)])
              == [Swap(1, 2), Swap(2, 3), e, e, Swap(2, 3), Swap(1, 2)]
  {
    var m := [Swap(1, 2), Swap(2, 3), e, Swap(2, 3), Swap(1, 2), Swap(1, 2), Swap(2, 3), e, Swap(2, 3), Swap(1, 2)];
    var m1 := [Swap(1, 2), Swap(2, 3), e, Swap(2, 3), Swap(2, 3), e, Swap(2, 3), Swap(1, 2)];
    var m2 := [Swap(1, 2), Swap(2, 3), e, e, Swap(2, 3), Swap(1, 2)];
    assert CancelsAt(m, 4) && !CancelsAt(m, 0) && !CancelsAt(m, 1) && !CancelsAt(m, 2) && !CancelsAt(m, 3);
    assert FirstPairFrom(m, 0) == Some(4);
    assert m[..4] + m[6..] == m1;
    assert CancelsAt(m1, 3) && !CancelsAt(m1, 0) && !CancelsAt(m1, 1) && !CancelsAt(m1, 2);
    assert FirstPairFrom(m1, 0) == Some(3);
    assert m1[..3] + m1[5..] == m2;
    assert forall i :: 0 <= i < |m2| ==> !CancelsAt(m2, i);
    assert FirstPairFrom(m2, 0) == None;
    assert Clean(m1) == Clean(m2) == m2;
  }

  lemma UpChainSnoc<H>(lo: int, k: int)
    requires lo <= k
    ensures UpChain<H>(lo, k - 1) + [Swap(k, k + 1)] == UpChain<H>(lo, k)
  {
  }

  lemma DownChainSnoc<H>(k: int, hi: int)
    requires k <= hi
    ensures DownChain<H>(k + 1, hi) + [Swap(k, k + 1)] == DownChain<H>(k, hi)
  {
  }

  lemma ReverseSnoc<X>(f: seq<X>, i: nat)
    requires i < |f|
    ensures Reverse(f[i..]) == Reverse(f[i + 1..]) + [f[i]]
  {
  }

  lemma ForwardSnoc<T, H>(bonds: seq<Bond<T>>, n: nat, tau: real, opf: (int, int, T) -> H,
                          norm: H -> real, ancilla: bool)
    requires n < |bonds|
    ensures Forward(bonds[..n + 1], tau, opf, norm, ancilla)
            == Forward(bonds[..n], tau, opf, norm, ancilla) + GatesOfBond(bonds[n], tau, opf, norm, ancilla)
  {
    assert bonds[..n + 1][..n] == bonds[..n];
  }

  // ----- The imperative code -----

  /** cleanGates: repeated passes, each scanning from the front and erasing the first pair
      of identical Swap gates it meets, until a pass erases nothing. */
  method CleanGates<H>(gates: seq<Gate<H>>) returns (g: seq<Gate<H>>)
    ensures g == Clean(gates)
  {
    g := gates;
    var success := true;
    while success
      invariant Clean(g) == Clean(gates)
      invariant !success ==> NoCancellingPair(g)
      decreases |g| + (if success then 1 else 0)
    {
      success := false;
      ghost var before := g;
      var i := 0;
      while i < |g|
        invariant 0 <= i <= |g| && g == before && !success
        invariant forall k :: 0 <= k < i ==> !CancelsAt(g, k)
      {
        var j := i + 1;
        if j < |g| && g[i].Swap? && g[j].Swap? && g[i].i1 == g[j].i1 && g[i].i2 == g[j].i2 {
          assert CancelsAt(g, i);
          assert FirstPairFrom(g, 0) == Some(i);
          success := true;
          g := g[..i] + g[j + 1..];
          break;
        }
        i := i + 1;
      }
      assert success ==> Clean(g) == Clean(before) && |g| == |before| - 2;
    }
  }

  /** makeGates: each bond's gates pushed in bond order, then the reversed copy appended,
      then cleanGates. */
  method MakeGates<T, H>(bonds: seq<Bond<T>>, tau: real, opf: (int, int, T) -> H,
                         norm: H -> real, ancilla: bool)
    returns (gates: seq<Gate<H>>)
    ensures gates == Clean(Mirror(Forward(bonds, tau, opf, norm, ancilla)))
  {
    var fwd: seq<Gate<H>> := [];
    for n := 0 to |bonds|
      invariant fwd == Forward(bonds[..n], tau, opf, norm, ancilla)
    {
      ForwardSnoc(bonds, n, tau, opf, norm, ancilla);
      ghost var before := fwd;
      var b := bonds[n];
      var i1, i2 := b.s1, b.s2;
      if ancilla {
        i1, i2 := 2 * b.s1 - 1, 2 * b.s2 - 1;
      }
      var hh := opf(i1, i2, b.kind);
      assert GatesOfBond(b, tau, opf, norm, ancilla) == BondGates(i1, i2, hh, tau, norm);
      if norm(hh) < NormCutoff {
        continue;
      }
      fwd := PushBond(fwd, i1, i2, hh, tau, norm);
    }
    assert bonds[..|bonds|] == bonds;
    var all := AppendReversed(fwd);
    gates := CleanGates(all);
  }

  /** The body of makeGates' bond loop once the operator is known not to be negligible:
      one evolution gate for an adjacent pair, a swap network otherwise. */
  method PushBond<H>(fwd: seq<Gate<H>>, i1: int, i2: int, hh: H, tau: real, norm: H -> real)
    returns (out: seq<Gate<H>>)
    requires norm(hh) >= NormCutoff
    ensures out == fwd + BondGates(i1, i2, hh, tau, norm)
  {
    out := fwd;
    if Abs(i2 - i1) == 1 {
      out := out + [Evol(i1, i2, tau / 2.0, Plain(hh))];
      return;
    }
    var k1 := i1;
    while k1 <= i2 - 2
      invariant i1 <= k1 && (k1 <= i2 - 1 || k1 == i1)
      invariant out == fwd + UpChain(i1, k1 - 1)
    {
      UpChainSnoc<H>(i1, k1);
      out := out + [Swap(k1, k1 + 1)];
      k1 := k1 + 1;
    }
    assert UpChain<H>(i1, k1 - 1) == UpChain(i1, i2 - 2);
    ghost var e := Evol(i2 - 1, i2, tau / 2.0, Relabelled(hh, i1, i2 - 1));
    out := out + [Evol(i2 - 1, i2, tau / 2.0, Relabelled(hh, i1, i2 - 1))];
    ghost var middle := out;
    k1 := i2 - 2;
    while k1 >= i1
      invariant k1 <= i2 - 2 && (i1 - 1 <= k1 || k1 == i2 - 2)
      invariant out == middle + DownChain(k1 + 1, i2 - 2)
    {
      DownChainSnoc<H>(k1, i2 - 2);
      out := out + [Swap(k1, k1 + 1)];
      k1 := k1 - 1;
    }
    assert DownChain<H>(k1 + 1, i2 - 2) == DownChain(i1, i2 - 2);
    assert BondGates(i1, i2, hh, tau, norm) == UpChain(i1, i2 - 2) + [e] + DownChain(i1, i2 - 2);
    assert out == fwd + (UpChain(i1, i2 - 2) + [e] + DownChain(i1, i2 - 2));
  }

  /** The second-order mirroring of makeGates: a copy of the list followed by the list
      traversed from its last entry to its first. */
  method AppendReversed<H>(fwd: seq<Gate<H>>) returns (all: seq<Gate<H>>)
    ensures all == Mirror(fwd)
  {
    all := fwd;
    var i := |fwd|;
    while i > 0
      invariant 0 <= i <= |fwd|
      invariant all == fwd + Reverse(fwd[i..])
    {
      i := i - 1;
      ReverseSnoc(fwd, i);
      all := all + [fwd[i]];
    }
  }
}
