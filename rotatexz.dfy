/**
 * The rotated measurement basis (basis/rotatexz.h) on spin-1/2 sites.
 *
 * Sampling probabilities and the contraction of a measured site use the X frame (the
 * eigenstates of Sx); a collapsed site is re-seeded in the Z frame (Up or Dn). The
 * constructor fills eight per-site tables once; the queries pick outcome 1 ("+", Up) or,
 * for any other outcome number, the minus/Dn entry.
 *
 * Amplitudes are exact: the source's ISqrt2 is a symbol c with c * c == 1/2, and an
 * amplitude is a number a + b·c with rational a and b.
 */
module RotateXZ {
  import opened Wrappers
  import Basis

  /** The amplitude re + ir·c, where c = 1/sqrt(2). */
  datatype Amp = Amp(re: real, ir: real)

  function Lit(q: real): Amp
  {
    Amp(q, 0.0)
  }

  /** The source's ISqrt2. */
  const ISqrt2: Amp := Amp(0.0, 1.0)

  function Plus(x: Amp, y: Amp): Amp
  {
    Amp(x.re + y.re, x.ir + y.ir)
  }

  function Minus(x: Amp, y: Amp): Amp
  {
    Amp(x.re - y.re, x.ir - y.ir)
  }

  function Times(x: Amp, y: Amp): Amp
  {
    Amp(x.re * y.re + x.ir * y.ir / 2.0, x.re * y.ir + x.ir * y.re)
  }

  /** A product of two rational amplitudes. */
  lemma TimesRational(a: real, b: real)
    ensures Times(Amp(a, 0.0), Amp(b, 0.0)) == Amp(a * b, 0.0)
  {
  }

  /** A product of two multiples of c: (a·c)(b·c) = a·b/2. */
  lemma TimesOfMultiplesOfC(a: real, b: real)
    ensures Times(Amp(0.0, a), Amp(0.0, b)) == Amp(a * b / 2.0, 0.0)
  {
  }

  /** A single-site state; component 1 is Up, component 2 is Dn. */
  datatype Vec2 = Vec2(up: Amp, dn: Amp)

  /** A single-site operator; the first letter is the unprimed index, the second the primed. */
  datatype Mat2 = Mat2(uu: Amp, ud: Amp, du: Amp, dd: Amp)

  function MatPlus(a: Mat2, b: Mat2): Mat2
  {
    Mat2(Plus(a.uu, b.uu), Plus(a.ud, b.ud), Plus(a.du, b.du), Plus(a.dd, b.dd))
  }

  function MatMinus(a: Mat2, b: Mat2): Mat2
  {
    Mat2(Minus(a.uu, b.uu), Minus(a.ud, b.ud), Minus(a.du, b.du), Minus(a.dd, b.dd))
  }

  function MatScale(q: real, a: Mat2): Mat2
  {
    Mat2(Times(Lit(q), a.uu), Times(Lit(q), a.ud), Times(Lit(q), a.du), Times(Lit(q), a.dd))
  }

  function MatTimes(a: Mat2, b: Mat2): Mat2
  {
    Mat2(Plus(Times(a.uu, b.uu), Times(a.ud, b.du)), Plus(Times(a.uu, b.ud), Times(a.ud, b.dd)),
         Plus(Times(a.du, b.uu), Times(a.dd, b.du)), Plus(Times(a.du, b.ud), Times(a.dd, b.dd)))
  }

  /** An operator with rational entries only. */
  predicate RationalMat(a: Mat2)
  {
    a.uu.ir == 0.0 && a.ud.ir == 0.0 && a.du.ir == 0.0 && a.dd.ir == 0.0
  }

  /** The product of two rational operators is the ordinary 2x2 matrix product. */
  lemma MatTimesRational(a: Mat2, b: Mat2)
    requires RationalMat(a) && RationalMat(b)
    ensures MatTimes(a, b) == Mat2(Lit(a.uu.re * b.uu.re + a.ud.re * b.du.re), Lit(a.uu.re * b.ud.re + a.ud.re * b.dd.re),
                                   Lit(a.du.re * b.uu.re + a.dd.re * b.du.re), Lit(a.du.re * b.ud.re + a.dd.re * b.dd.re))
  {
    TimesRational(a.uu.re, b.uu.re);
    TimesRational(a.ud.re, b.du.re);
    TimesRational(a.uu.re, b.ud.re);
    TimesRational(a.ud.re, b.dd.re);
    TimesRational(a.du.re, b.uu.re);
    TimesRational(a.dd.re, b.du.re);
    TimesRational(a.du.re, b.ud.re);
    TimesRational(a.dd.re, b.dd.re);
  }

  function Outer(v: Vec2, w: Vec2): Mat2
  {
    Mat2(Times(v.up, w.up), Times(v.up, w.dn), Times(v.dn, w.up), Times(v.dn, w.dn))
  }

  predicate Symmetric(a: Mat2)
  {
    a.ud == a.du
  }

  const IdMat: Mat2 := Mat2(Amp(1.0, 0.0), Amp(0.0, 0.0), Amp(0.0, 0.0), Amp(1.0, 0.0))
  const ZeroMat: Mat2 := Mat2(Amp(0.0, 0.0), Amp(0.0, 0.0), Amp(0.0, 0.0), Amp(0.0, 0.0))

  /** The spin-1/2 site operator Sz. */
  const SzMat: Mat2 := Mat2(Amp(0.5, 0.0), Amp(0.0, 0.0), Amp(0.0, 0.0), Amp(-0.5, 0.0))

  /** The X-frame projectors, written entry by entry as the constructor sets them. */
  const ProjUpX: Mat2 := Mat2(Amp(0.5, 0.0), Amp(0.5, 0.0), Amp(0.5, 0.0), Amp(0.5, 0.0))
  const ProjDnX: Mat2 := Mat2(Amp(0.5, 0.0), Amp(-0.5, 0.0), Amp(-0.5, 0.0), Amp(0.5, 0.0))

  /** The Z-frame projectors; UpZIsHalfIdPlusSz and DnZIsHalfIdMinusSz show they are 0.5·Id + Sz and 0.5·Id - Sz. */
  const ProjUpZ: Mat2 := Mat2(Amp(1.0, 0.0), Amp(0.0, 0.0), Amp(0.0, 0.0), Amp(0.0, 0.0))
  const ProjDnZ: Mat2 := Mat2(Amp(0.0, 0.0), Amp(0.0, 0.0), Amp(0.0, 0.0), Amp(1.0, 0.0))

  /** The X-frame states (c, c) and (c, -c), and the Z-frame states Up and Dn. */
  const UpX: Vec2 := Vec2(Amp(0.0, 1.0), Amp(0.0, 1.0))
  const DnX: Vec2 := Vec2(Amp(0.0, 1.0), Amp(0.0, -1.0))
  const UpZ: Vec2 := Vec2(Amp(1.0, 0.0), Amp(0.0, 0.0))
  const DnZ: Vec2 := Vec2(Amp(0.0, 0.0), Amp(1.0, 0.0))

  /** A table entry; Unset is a default-constructed tensor. */
  datatype Tensor = Unset | Ket(v: Vec2) | Op(m: Mat2)

  /** c * c == 1/2. */
  lemma ISqrt2Squared()
    ensures Times(ISqrt2, ISqrt2) == Lit(0.5)
  {
  }

  lemma UpXIdempotent()
    ensures MatTimes(ProjUpX, ProjUpX) == ProjUpX
  {
    MatTimesRational(ProjUpX, ProjUpX);
  }

  lemma DnXIdempotent()
    ensures MatTimes(ProjDnX, ProjDnX) == ProjDnX
  {
    MatTimesRational(ProjDnX, ProjDnX);
  }

  lemma XOrthogonal()
    ensures MatTimes(ProjUpX, ProjDnX) == ZeroMat
  {
    MatTimesRational(ProjUpX, ProjDnX);
  }

  lemma XOrthogonalReversed()
    ensures MatTimes(ProjDnX, ProjUpX) == ZeroMat
  {
    MatTimesRational(ProjDnX, ProjUpX);
  }

  /** The two X-frame projectors are symmetric and resolve the identity. */
  lemma XProjectorsResolveIdentity()
    ensures Symmetric(ProjUpX) && Symmetric(ProjDnX)
    ensures MatPlus(ProjUpX, ProjDnX) == IdMat
  {
  }

  lemma UpZIsHalfIdPlusSz()
    ensures ProjUpZ == MatPlus(MatScale(0.5, IdMat), SzMat)
  {
  }

  lemma DnZIsHalfIdMinusSz()
    ensures ProjDnZ == MatMinus(MatScale(0.5, IdMat), SzMat)
  {
  }

  /** The constructor's 0.5·Id + Sz and 0.5·Id - Sz: the projectors onto Up and onto Dn. */
  method ZFrameProjectors() returns (up: Mat2, dn: Mat2)
    ensures up == ProjUpZ && dn == ProjDnZ
  {
    up := MatPlus(MatScale(0.5, IdMat), SzMat);
    dn := MatMinus(MatScale(0.5, IdMat), SzMat);
    UpZIsHalfIdPlusSz();
    DnZIsHalfIdMinusSz();
  }

  lemma UpZIdempotent()
    ensures MatTimes(ProjUpZ, ProjUpZ) == ProjUpZ
  {
    MatTimesRational(ProjUpZ, ProjUpZ);
  }

  lemma DnZIdempotent()
    ensures MatTimes(ProjDnZ, ProjDnZ) == ProjDnZ
  {
    MatTimesRational(ProjDnZ, ProjDnZ);
  }

  lemma ZOrthogonal()
    ensures MatTimes(ProjUpZ, ProjDnZ) == ZeroMat
  {
    MatTimesRational(ProjUpZ, ProjDnZ);
  }

  /** The two Z-frame projectors are symmetric and resolve the identity. */
  lemma ZProjectorsResolveIdentity()
    ensures Symmetric(ProjUpZ) && Symmetric(ProjDnZ)
    ensures MatPlus(ProjUpZ, ProjDnZ) == IdMat
  {
  }

  lemma UpXOuter()
    ensures Outer(UpX, UpX) == ProjUpX
  {
    TimesOfMultiplesOfC(1.0, 1.0);
    TimesOfMultiplesOfC(1.0, -1.0);
    TimesOfMultiplesOfC(-1.0, 1.0);
    TimesOfMultiplesOfC(-1.0, -1.0);
  }

  lemma DnXOuter()
    ensures Outer(DnX, DnX) == ProjDnX
  {
    TimesOfMultiplesOfC(1.0, 1.0);
    TimesOfMultiplesOfC(1.0, -1.0);
    TimesOfMultiplesOfC(-1.0, 1.0);
    TimesOfMultiplesOfC(-1.0, -1.0);
  }

  lemma UpZOuter()
    ensures Outer(UpZ, UpZ) == ProjUpZ
  {
    TimesRational(0.0, 0.0);
    TimesRational(0.0, 1.0);
    TimesRational(1.0, 0.0);
    TimesRational(1.0, 1.0);
  }

  lemma DnZOuter()
    ensures Outer(DnZ, DnZ) == ProjDnZ
  {
    TimesRational(0.0, 0.0);
    TimesRational(0.0, 1.0);
    TimesRational(1.0, 0.0);
    TimesRational(1.0, 1.0);
  }

  /** The per-site tables. They are filled once, site by site, in the constructor and only
      read afterwards, so they are immutable fields holding the table contents. */
  class RotateXZ {
    const N: nat
    const projUpX: seq<Tensor>
    const projDnX: seq<Tensor>
    const projUpZ: seq<Tensor>
    const projDnZ: seq<Tensor>
    const stateUpX: seq<Tensor>
    const stateDnX: seq<Tensor>
    const stateUpZ: seq<Tensor>
    const stateDnZ: seq<Tensor>

    /** Slot 0 is a default tensor and slots 1..N hold x. */
    predicate Filled(a: seq<Tensor>, x: Tensor)
    {
      |a| == N + 1 && a[0] == Unset && forall j :: 1 <= j <= N ==> a[j] == x
    }

    predicate Valid()
    {
      && Filled(projUpX, Op(ProjUpX)) && Filled(projDnX, Op(ProjDnX))
      && Filled(projUpZ, Op(ProjUpZ)) && Filled(projDnZ, Op(ProjDnZ))
      && Filled(stateUpX, Ket(UpX)) && Filled(stateDnX, Ket(DnX))
      && Filled(stateUpZ, Ket(UpZ)) && Filled(stateDnZ, Ket(DnZ))
    }

    /** RotateXZ(sites): eight tables of N+1 default slots; slots 1..N are then filled site by
        site, the Z-frame projectors built as 0.5·Id ± Sz and the X-frame ones entry by entry. */
    constructor (n: nat)
      ensures N == n && Valid()
    {
      var blank := seq(n + 1, _ => Unset);
      var pUpX, pDnX, pUpZ, pDnZ := blank, blank, blank, blank;
      var sUpX, sDnX, sUpZ, sDnZ := blank, blank, blank, blank;
      for j := 1 to n + 1
        invariant FilledTo(pUpX, Op(ProjUpX), j, n) && FilledTo(pDnX, Op(ProjDnX), j, n)
        invariant FilledTo(pUpZ, Op(ProjUpZ), j, n) && FilledTo(pDnZ, Op(ProjDnZ), j, n)
        invariant FilledTo(sUpX, Ket(UpX), j, n) && FilledTo(sDnX, Ket(DnX), j, n)
        invariant FilledTo(sUpZ, Ket(UpZ), j, n) && FilledTo(sDnZ, Ket(DnZ), j, n)
      {
        var upZ, dnZ := ZFrameProjectors();
        pUpZ := pUpZ[j := Op(upZ)];
        pDnZ := pDnZ[j := Op(dnZ)];
        pUpX := pUpX[j := Op(Mat2(Lit(0.5), Lit(0.5), Lit(0.5), Lit(0.5)))];
        pDnX := pDnX[j := Op(Mat2(Lit(0.5), Lit(-0.5), Lit(-0.5), Lit(0.5)))];
        sUpZ := sUpZ[j := Ket(UpZ)];
        sDnZ := sDnZ[j := Ket(DnZ)];
        sUpX := sUpX[j := Ket(Vec2(ISqrt2, ISqrt2))];
        sDnX := sDnX[j := Ket(Vec2(ISqrt2, Minus(Lit(0.0), ISqrt2)))];
      }
      N := n;
      projUpX, projDnX, projUpZ, projDnZ := pUpX, pDnX, pUpZ, pDnZ;
      stateUpX, stateDnX, stateUpZ, stateDnZ := sUpX, sDnX, sUpZ, sDnZ;
    }

    /** State(s, n): the X-frame state measured against. Site 0 answers the default entry
        and a site outside 0..N is out of range (None). */
    function State(s: int, n: int): (r: Option<Tensor>)
      requires Valid()
      ensures r.None? <==> !(0 <= s <= N)
      ensures s == 0 ==> r == Some(Unset)
      ensures 1 <= s <= N ==> r == Some(Ket(if n == 1 then UpX else DnX))
    {
      if 0 <= s <= N then Some(if n == 1 then stateUpX[s] else stateDnX[s]) else None
    }

    /** NewState(s, n): the Z-frame state a collapsed site is re-seeded with. */
    function NewState(s: int, n: int): (r: Option<Tensor>)
      requires Valid()
      ensures r.None? <==> !(0 <= s <= N)
      ensures s == 0 ==> r == Some(Unset)
      ensures 1 <= s <= N ==> r == Some(Ket(if n == 1 then UpZ else DnZ))
    {
      if 0 <= s <= N then Some(if n == 1 then stateUpZ[s] else stateDnZ[s]) else None
    }

    /** Proj(s, n): the X-frame projector whose expectation is outcome n's probability. */
    function Proj(s: int, n: int): (r: Option<Tensor>)
      requires Valid()
      ensures r.None? <==> !(0 <= s <= N)
      ensures s == 0 ==> r == Some(Unset)
      ensures 1 <= s <= N ==> r == Some(Op(if n == 1 then ProjUpX else ProjDnX))
    {
      if 0 <= s <= N then Some(if n == 1 then projUpX[s] else projDnX[s]) else None
    }

    /** StateStr(s, n): "+" for outcome 1, "-" for anything else, whatever the site. */
    function StateStr(s: int, n: int): (r: string)
      ensures |r| == 1
      ensures r == "+" <==> n == 1
      ensures r == "-" <==> n != 1
    {
      if n == 1 then "+" else "-"
    }

    /** This basis seen through the interface: state, proj and statestr from the X-frame
        tables, and its own newstate from the Z-frame tables. A query that would throw
        answers None. */
    function AsBasis(): (b: Basis.Basis<Option<Tensor>>)
      requires Valid()
      ensures b.newstateOverride.Some?
    {
      Basis.Basis((s, n) => State(s, n), Some((s, n) => NewState(s, n)), (s, n) => Proj(s, n),
                  (s, n) => StateStr(s, n))
    }
  }

  /** Slot 0 of a is a default tensor, slots 1..j-1 hold x and a has n+1 slots. */
  ghost predicate FilledTo(a: seq<Tensor>, x: Tensor, j: int, n: nat)
  {
    |a| == n + 1 && a[0] == Unset && forall k :: 1 <= k < j && k <= n ==> a[k] == x
  }

  /** The interface view answers every query as the object does; newstate is overridden,
      so on a site a collapsed site gets the Z-frame state, not the X-frame one. */
  lemma AsBasisAgrees(b: RotateXZ, s: int, n: int)
    requires b.Valid()
    ensures b.AsBasis().state(s, n) == b.State(s, n)
    ensures Basis.NewState(b.AsBasis(), s, n) == b.NewState(s, n)
    ensures b.AsBasis().proj(s, n) == b.Proj(s, n)
    ensures b.AsBasis().statestr(s, n) == b.StateStr(s, n)
    ensures 1 <= s <= b.N ==> Basis.NewState(b.AsBasis(), s, n) != b.AsBasis().state(s, n)
  {
  }

  /** On a site 1..N the projector proj(s, n) is the outer product of the state state(s, n)
      with itself: the probability of outcome n is the weight on the state contracted out. */
  lemma ProjIsOuterOfState(b: RotateXZ, s: int, n: int)
    requires b.Valid() && 1 <= s <= b.N
    ensures b.State(s, n).value.Ket? && b.Proj(s, n).value.Op?
    ensures b.Proj(s, n).value.m == Outer(b.State(s, n).value.v, b.State(s, n).value.v)
  {
    if n == 1 {
      assert b.State(s, n).value.v == UpX && b.Proj(s, n).value.m == ProjUpX;
      UpXOuter();
    } else {
      assert b.State(s, n).value.v == DnX && b.Proj(s, n).value.m == ProjDnX;
      DnXOuter();
    }
  }

  /** On a site 1..N the projectors of outcome 1 and of any other outcome sum to the
      identity, so the two probabilities of a normalised state sum to one. */
  lemma ProjectorsResolveIdentityOnSite(b: RotateXZ, s: int, n: int)
    requires b.Valid() && 1 <= s <= b.N && n != 1
    ensures MatPlus(b.Proj(s, 1).value.m, b.Proj(s, n).value.m) == IdMat
  {
    XProjectorsResolveIdentity();
  }

  /** On a site 1..N a collapsed site is re-seeded with the Z-frame eigenstate whose
      projector is 0.5·Id + Sz for outcome 1 and 0.5·Id - Sz otherwise. */
  lemma NewStateIsZEigenstate(b: RotateXZ, s: int, n: int)
    requires b.Valid() && 1 <= s <= b.N
    ensures b.NewState(s, n).value.Ket?
    ensures Outer(b.NewState(s, n).value.v, b.NewState(s, n).value.v)
              == if n == 1 then MatPlus(MatScale(0.5, IdMat), SzMat) else MatMinus(MatScale(0.5, IdMat), SzMat)
  {
    if n == 1 {
      assert b.NewState(s, n).value.v == UpZ;
      UpZOuter();
      UpZIsHalfIdPlusSz();
    } else {
      assert b.NewState(s, n).value.v == DnZ;
      DnZOuter();
      DnZIsHalfIdMinusSz();
    }
  }

  /** The Z-frame projectors are built but never handed out: proj answers an X-frame
      projector or the default entry, state answers X-frame states and newstate Z-frame ones. */
  lemma ZProjectorsNeverReturned(b: RotateXZ, s: int, n: int)
    requires b.Valid()
    ensures b.Proj(s, n) != Some(Op(ProjUpZ)) && b.Proj(s, n) != Some(Op(ProjDnZ))
    ensures b.State(s, n) != Some(Ket(UpZ)) && b.State(s, n) != Some(Ket(DnZ))
    ensures b.NewState(s, n) != Some(Ket(UpX)) && b.NewState(s, n) != Some(Ket(DnX))
  {
  }

  /** rotateXZ(sites): a fresh basis object of N sites. */
  method MakeRotateXZ(n: nat) returns (b: RotateXZ)
    ensures fresh(b) && b.Valid() && b.N == n
  {
    b := new RotateXZ(n);
  }
}
