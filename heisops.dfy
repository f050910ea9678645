/**
 * The bond-operator factory of the Heisenberg model (heisops.h).
 *
 * HeisOps is called once per bond (i1, i2) and returns the two-site operator
 *   Jz·Sz(i1)Sz(i2) + Jxy/2·(S+(i1)S-(i2) + S-(i1)S+(i2)) + Jx·Sx(i1)Sx(i2)
 * and, the FIRST time a site is named by any call, that site's field term
 * -hx·Sx - hz·Sz (with the identity on the other site of the bond). A vector of flags,
 * one per site 0..N, remembers which sites still need their field; it is the only
 * state the object changes.
 *
 * An operator is kept symbolically as the list of its terms in the order they are added:
 * each term is a coefficient times an operator name on i1 times one on i2.
 */
module HeisOps {
  /** The single-site operators the factory uses. */
  datatype OpName = Sz | SPlus | SMinus | Sx | Id

  /** coeff · op1(i1) · op2(i2). */
  datatype Term = Term(coeff: real, op1: OpName, op2: OpName)

  /** The couplings read from the arguments. */
  datatype Couplings = Couplings(jz: real, jxy: real, jx: real, hx: real, hz: real)

  /** What one call answers: the bond operator, or the site whose flag lookup (the vector's
      bounds-checked at) fails. */
  datatype Outcome = Operator(hh: seq<Term>) | SiteOutOfRange(site: int)

  /** Args::getReal: the named value when present, else the default. */
  function GetReal(args: map<string, real>, key: string, default: real): (r: real)
    ensures key in args ==> r == args[key]
    ensures key !in args ==> r == default
  {
    if key in args then args[key] else default
  }

  /** The constructor's reading of the arguments: J (default 1) is the default of Jz and of
      Jxy; Jx, hx and hz default to 0. */
  function CouplingsOf(args: map<string, real>): (r: Couplings)
    ensures r.jz == if "Jz" in args then args["Jz"] else if "J" in args then args["J"] else 1.0
    ensures r.jxy == if "Jxy" in args then args["Jxy"] else if "J" in args then args["J"] else 1.0
    ensures r.jx == (if "Jx" in args then args["Jx"] else 0.0)
    ensures r.hx == (if "hx" in args then args["hx"] else 0.0)
    ensures r.hz == (if "hz" in args then args["hz"] else 0.0)
  {
    var j := GetReal(args, "J", 1.0);
    Couplings(GetReal(args, "Jz", j), GetReal(args, "Jxy", j), GetReal(args, "Jx", 0.0),
              GetReal(args, "hx", 0.0), GetReal(args, "hz", 0.0))
  }

  /** With no arguments the model is the isotropic Heisenberg chain without fields; J alone
      sets both Jz and Jxy, and an explicit Jz or Jxy overrides it. */
  lemma DefaultCouplings(args: map<string, real>)
    ensures args == map[] ==> CouplingsOf(args) == Couplings(1.0, 1.0, 0.0, 0.0, 0.0)
    ensures "Jz" !in args && "Jxy" !in args ==> CouplingsOf(args).jz == CouplingsOf(args).jxy
    ensures "J" in args && "Jz" !in args ==> CouplingsOf(args).jz == args["J"]
    ensures "Jz" in args ==> CouplingsOf(args).jz == args["Jz"]
    ensures "Jxy" in args ==> CouplingsOf(args).jxy == args["Jxy"]
  {
  }

  /** The bond part: Sz·Sz always (even when Jz is 0), the two spin-flip terms when
      Jxy != 0, the Sx·Sx term when Jx != 0. */
  function BondTerms(c: Couplings): seq<Term>
  {
    [Term(c.jz, Sz, Sz)]
    + (if c.jxy != 0.0 then [Term(c.jxy / 2.0, SPlus, SMinus), Term(c.jxy / 2.0, SMinus, SPlus)] else [])
    + (if c.jx != 0.0 then [Term(c.jx, Sx, Sx)] else [])
  }

  /** The field of one site, -hx·Sx then -hz·Sz, each only when its coupling is nonzero, with
      the identity on the other site; onFirst says whether the field sits on i1. */
  function FieldTerms(c: Couplings, onFirst: bool): seq<Term>
  {
    (if c.hx != 0.0 then [if onFirst then Term(-c.hx, Sx, Id) else Term(-c.hx, Id, Sx)] else [])
    + (if c.hz != 0.0 then [if onFirst then Term(-c.hz, Sz, Id) else Term(-c.hz, Id, Sz)] else [])
  }

  /** One call as a function of the flags: the outcome and the flags afterwards. i1's flag is
      looked up (and cleared) before i2's, so a call that fails on i2 has already cleared i1. */
  function Call(c: Couplings, flags: seq<bool>, i1: int, i2: int): (r: (Outcome, seq<bool>))
    ensures r.0.SiteOutOfRange? <==> !(0 <= i1 < |flags|) || !(0 <= i2 < |flags|)
    ensures r.0.SiteOutOfRange? ==> r.0.site == if 0 <= i1 < |flags| then i2 else i1
    ensures |r.1| == |flags|
  {
    if !(0 <= i1 < |flags|) then (SiteOutOfRange(i1), flags)
    else
      var first := if flags[i1] then FieldTerms(c, true) else [];
      var f1 := flags[i1 := false];
      if !(0 <= i2 < |f1|) then (SiteOutOfRange(i2), f1)
      else
        var second := if f1[i2] then FieldTerms(c, false) else [];
        (Operator(BondTerms(c) + first + second), f1[i2 := false])
  }

  /** A term carries a site field on i1 (the identity on i2) or on i2. */
  predicate FieldOnFirst(t: Term) { t.op2 == Id }
  predicate FieldOnSecond(t: Term) { t.op1 == Id }

  predicate HasFields(c: Couplings) { c.hx != 0.0 || c.hz != 0.0 }

  /** The operator carries a field term on i1, or on i2. */
  predicate HasFirstField(hh: seq<Term>) { exists t :: t in hh && FieldOnFirst(t) }
  predicate HasSecondField(hh: seq<Term>) { exists t :: t in hh && FieldOnSecond(t) }

  /** The bond part opens with Jz·Sz·Sz whatever Jz is, carries the spin-flip pair exactly
      when Jxy != 0 and the Sx·Sx term exactly when Jx != 0, and never contains the identity,
      so the field terms of an operator are exactly the ones a call adds. */
  lemma BondTermsShape(c: Couplings)
    ensures |BondTerms(c)| >= 1 && BondTerms(c)[0] == Term(c.jz, Sz, Sz)
    ensures Term(c.jxy / 2.0, SPlus, SMinus) in BondTerms(c) <==> c.jxy != 0.0
    ensures Term(c.jxy / 2.0, SMinus, SPlus) in BondTerms(c) <==> c.jxy != 0.0
    ensures Term(c.jx, Sx, Sx) in BondTerms(c) <==> c.jx != 0.0
    ensures |BondTerms(c)| == 1 + (if c.jxy != 0.0 then 2 else 0) + (if c.jx != 0.0 then 1 else 0)
    ensures forall t :: t in BondTerms(c) ==> !FieldOnFirst(t) && !FieldOnSecond(t)
  {
  }

  /** The operator of a call holds a field term on i1 exactly when i1 still had its flag (and some
      field is nonzero), and one on i2 exactly when i2 still had its flag after i1's was
      cleared; the flags afterwards are the old ones with i1 and i2 cleared. */
  lemma CallFields(c: Couplings, flags: seq<bool>, i1: int, i2: int)
    requires 0 <= i1 < |flags| && 0 <= i2 < |flags|
    ensures Call(c, flags, i1, i2).0.Operator?
    ensures HasFirstField(Call(c, flags, i1, i2).0.hh) <==> flags[i1] && HasFields(c)
    ensures HasSecondField(Call(c, flags, i1, i2).0.hh) <==> flags[i2] && i2 != i1 && HasFields(c)
    ensures Call(c, flags, i1, i2).1 == flags[i1 := false][i2 := false]
  {
    BondTermsShape(c);
    var hh := Call(c, flags, i1, i2).0.hh;
    var first := if flags[i1] then FieldTerms(c, true) else [];
    var f1 := flags[i1 := false];
    var second := if f1[i2] then FieldTerms(c, false) else [];
    assert hh == BondTerms(c) + first + second;
    assert forall t :: t in hh <==> t in BondTerms(c) || t in first || t in second;
    if flags[i1] && HasFields(c) {
      assert FieldOnFirst(FieldTerms(c, true)[0]);
    }
    if f1[i2] && HasFields(c) {
      assert FieldOnSecond(FieldTerms(c, false)[0]);
    }
  }

  /** A call that fails leaves every flag it has not reached as it was: a failure on i1
      changes nothing, a failure on i2 has cleared only i1's flag. */
  lemma CallOutOfRange(c: Couplings, flags: seq<bool>, i1: int, i2: int)
    requires !(0 <= i1 < |flags|) || !(0 <= i2 < |flags|)
    ensures Call(c, flags, i1, i2).0.SiteOutOfRange?
    ensures !(0 <= i1 < |flags|) ==> Call(c, flags, i1, i2) == (SiteOutOfRange(i1), flags)
    ensures 0 <= i1 < |flags| ==> Call(c, flags, i1, i2) == (SiteOutOfRange(i2), flags[i1 := false])
  {
  }

  /** Whatever its outcome, a call only ever clears flags, and only those of i1 and i2. */
  lemma FlagsOnlyClear(c: Couplings, flags: seq<bool>, i1: int, i2: int)
    ensures |Call(c, flags, i1, i2).1| == |flags|
    ensures forall s :: 0 <= s < |flags| && Call(c, flags, i1, i2).1[s] ==> flags[s]
    ensures forall s :: 0 <= s < |flags| && s != i1 && s != i2 ==> Call(c, flags, i1, i2).1[s] == flags[s]
  {
  }

  /** Call names site s. */
  predicate Names(call: (int, int), s: int)
  {
    call.0 == s || call.1 == s
  }

  /** No call before the k-th names site s. */
  predicate UnnamedBefore(calls: seq<(int, int)>, k: int, s: int)
  {
    forall m :: 0 <= m < k && m < |calls| ==> !Names(calls[m], s)
  }

  /** The flags after a run of calls, each made on the flags the previous one left. */
  function FlagsAfter(c: Couplings, flags: seq<bool>, calls: seq<(int, int)>): (r: seq<bool>)
    ensures |r| == |flags|
    decreases |calls|
  {
    if calls == [] then flags
    else FlagsAfter(c, Call(c, flags, calls[0].0, calls[0].1).1, calls[1..])
  }

  /** Every call of the run names sites of the lattice vector. */
  predicate InRange(calls: seq<(int, int)>, n: int)
  {
    forall k :: 0 <= k < |calls| ==> 0 <= calls[k].0 <= n && 0 <= calls[k].1 <= n
  }

  /** The k-th call of a run, made on the flags the first k calls left. */
  function KthOperator(c: Couplings, flags: seq<bool>, calls: seq<(int, int)>, k: nat): Outcome
    requires k < |calls|
  {
    var f := FlagsAfter(c, flags, calls[..k]);
    Call(c, f, calls[k].0, calls[k].1).0
  }

  /** After a run of in-range calls a site's flag is still set exactly when it was set before
      and no call of the run named the site. */
  lemma {:induction false} FlagsAfterRun(c: Couplings, flags: seq<bool>, calls: seq<(int, int)>, s: int)
    requires InRange(calls, |flags| - 1) && 0 <= s < |flags|
    ensures FlagsAfter(c, flags, calls)[s] <==> flags[s] && UnnamedBefore(calls, |calls|, s)
    decreases |calls|
  {
    if calls != [] {
      var next := Call(c, flags, calls[0].0, calls[0].1).1;
      CallFields(c, flags, calls[0].0, calls[0].1);
      assert InRange(calls[1..], |next| - 1) by {
        forall k | 0 <= k < |calls[1..]|
          ensures 0 <= calls[1..][k].0 <= |next| - 1 && 0 <= calls[1..][k].1 <= |next| - 1
        {
          assert calls[1..][k] == calls[k + 1];
        }
      }
      FlagsAfterRun(c, next, calls[1..], s);
      assert UnnamedBefore(calls, |calls|, s) <==> !Names(calls[0], s) && UnnamedBefore(calls[1..], |calls[1..]|, s) by {
        if !Names(calls[0], s) && UnnamedBefore(calls[1..], |calls[1..]|, s) {
          forall m | 0 <= m < |calls|
            ensures !Names(calls[m], s)
          {
            if m > 0 {
              assert calls[m] == calls[1..][m - 1];
            }
          }
        }
        if UnnamedBefore(calls, |calls|, s) {
          forall m | 0 <= m < |calls[1..]|
            ensures !Names(calls[1..][m], s)
          {
            assert calls[1..][m] == calls[m + 1];
          }
        }
      }
    }
  }

  /** The point of the flags: over a run of calls starting with every flag set, the field of
      site s is added in call k (on whichever side of the bond s sits) exactly when call k is
      the first call that names s — so every site named by the run gets its field once. */
  lemma FieldAddedOnce(c: Couplings, n: nat, calls: seq<(int, int)>, k: nat, s: int)
    requires InRange(calls, n) && k < |calls| && 0 <= s <= n && HasFields(c)
    ensures KthOperator(c, seq(n + 1, _ => true), calls, k).Operator?
    ensures (var hh := KthOperator(c, seq(n + 1, _ => true), calls, k).hh;
             (calls[k].0 == s && HasFirstField(hh)) || (calls[k].1 == s && HasSecondField(hh)))
            <==> Names(calls[k], s) && UnnamedBefore(calls, k, s)
  {
    var all := seq(n + 1, _ => true);
    var f := FlagsAfter(c, all, calls[..k]);
    assert InRange(calls[..k], |all| - 1) by {
      forall m | 0 <= m < k
        ensures 0 <= calls[..k][m].0 <= n && 0 <= calls[..k][m].1 <= n
      {
        assert calls[..k][m] == calls[m];
      }
    }
    var i1, i2 := calls[k].0, calls[k].1;
    FlagsAfterRun(c, all, calls[..k], i1);
    FlagsAfterRun(c, all, calls[..k], i2);
    CallFields(c, f, i1, i2);
    UnnamedPrefix(calls, k, i1);
    UnnamedPrefix(calls, k, i2);
  }

  lemma UnnamedPrefix(calls: seq<(int, int)>, k: nat, s: int)
    requires k <= |calls|
    ensures UnnamedBefore(calls[..k], k, s) <==> UnnamedBefore(calls, k, s)
  {
    assert forall m :: 0 <= m < k ==> calls[..k][m] == calls[m];
  }

  /** The factory object. The couplings and the lattice shape are fixed at construction;
      putsite holds one flag per site 0..N and is the only state a call changes. */
  class HeisOps {
    const N: nat
    const Nx: int
    const Ny: int
    const couplings: Couplings
    var putsite: seq<bool>

    /** HeisOps(sites, Nx, Ny, args): all N+1 flags set and the couplings read from args. */
    constructor (n: nat, nx: int, ny: int, args: map<string, real>)
      ensures N == n && Nx == nx && Ny == ny
      ensures couplings == CouplingsOf(args)
      ensures putsite == seq(n + 1, _ => true)
    {
      N, Nx, Ny := n, nx, ny;
      var j := GetReal(args, "J", 1.0);
      var jz := GetReal(args, "Jz", j);
      var jxy := GetReal(args, "Jxy", j);
      var jx := GetReal(args, "Jx", 0.0);
      var hx := GetReal(args, "hx", 0.0);
      var hz := GetReal(args, "hz", 0.0);
      couplings := Couplings(jz, jxy, jx, hx, hz);
      putsite := seq(n + 1, _ => true);
    }

    /** operator()(i1, i2, type): builds the bond operator term by term, adds each site's
        field the first time the site is seen and clears its flag. The type string is not
        used by this model of the Heisenberg couplings. */
    method Apply(i1: int, i2: int, kind: string) returns (r: Outcome)
      modifies this
      ensures (r, putsite) == Call(couplings, old(putsite), i1, i2)
    {
      var hh := BondOperator(couplings);
      if !(0 <= i1 < |putsite|) {
        return SiteOutOfRange(i1);
      }
      if putsite[i1] {
        hh := AddField(couplings, hh, true);
        putsite := putsite[i1 := false];
      }
      assert hh == BondTerms(couplings) + (if old(putsite)[i1] then FieldTerms(couplings, true) else []);
      assert putsite == old(putsite)[i1 := false];
      if !(0 <= i2 < |putsite|) {
        return SiteOutOfRange(i2);
      }
      if putsite[i2] {
        hh := AddField(couplings, hh, false);
        putsite := putsite[i2 := false];
      }
      assert putsite == old(putsite)[i1 := false][i2 := false];
      ghost var first := if old(putsite)[i1] then FieldTerms(couplings, true) else [];
      ghost var second := if old(putsite)[i1 := false][i2] then FieldTerms(couplings, false) else [];
      assert hh == BondTerms(couplings) + first + second;
      r := Operator(hh);
    }
  }

  /** The bond part of operator(), accumulated term by term: it is BondTerms. */
  method BondOperator(c: Couplings) returns (hh: seq<Term>)
    ensures hh == BondTerms(c)
  {
    hh := [Term(c.jz, Sz, Sz)];
    if c.jxy != 0.0 {
      hh := hh + [Term(c.jxy / 2.0, SPlus, SMinus)];
      hh := hh + [Term(c.jxy / 2.0, SMinus, SPlus)];
    }
    if c.jx != 0.0 {
      hh := hh + [Term(c.jx, Sx, Sx)];
    }
  }

  /** Adding one site's field to the operator: the nonzero field terms are appended, on i1
      when onFirst holds and on i2 otherwise. */
  method AddField(c: Couplings, hh: seq<Term>, onFirst: bool) returns (r: seq<Term>)
    ensures r == hh + FieldTerms(c, onFirst)
  {
    r := hh;
    if c.hx != 0.0 {
      r := r + [if onFirst then Term(-c.hx, Sx, Id) else Term(-c.hx, Id, Sx)];
    }
    if c.hz != 0.0 {
      r := r + [if onFirst then Term(-c.hz, Sz, Id) else Term(-c.hz, Id, Sz)];
    }
  }
}
