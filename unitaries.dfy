/**
 * Exact single-qubit unitaries for the rules whose rotations are all
 * multiples of π (for RX) or of π/2 (for RZ).  Such a rotation is a 2×2
 * monomial matrix, one non-zero entry per column, each a power of
 * ω = e^(iπ/4), so a product of them is again one.
 */
module Unitaries {
  import opened Wrappers
  import opened Instructions
  import opened Decomposition

  /**
   * A monomial matrix: column j holds ω^e_j in row j when !swap and in
   * row 1 - j when swap, and zeros elsewhere.  Since ω^8 = 1, exponents
   * that differ by a multiple of 8 denote the same entry.
   */
  datatype Mono = Mono(swap: bool, e0: int, e1: int)
  {
    /** The exponent of column j's non-zero entry. */
    function Exp(j: nat): int
      requires j < 2
    {
      if j == 0 then e0 else e1
    }

    /** The row of column j's non-zero entry. */
    function Row(j: nat): nat
      requires j < 2
    {
      if swap then 1 - j else j
    }
  }

  /** An entry as a formal sum of powers of ω, exponents in [0, 8): [] is 0 and [e] is ω^e. */
  function Entry(m: Mono, r: nat, c: nat): (t: seq<int>)
    requires r < 2 && c < 2
    ensures |t| <= 1 && forall i :: 0 <= i < |t| ==> 0 <= t[i] < 8
  {
    if m.Row(c) == r then [m.Exp(c) % 8] else []
  }

  /** Two exponents give the same power of ω exactly when they differ by a multiple of 8. */
  lemma ModEq(x: int, y: int)
    ensures x % 8 == y % 8 <==> (x - y) % 8 == 0
  {
    var qx, qy := x / 8, y / 8;
    assert x == 8 * qx + x % 8;
    assert y == 8 * qy + y % 8;
    assert x - y == 8 * (qx - qy) + (x % 8 - y % 8);
    if (x - y) % 8 == 0 {
      var d := (x - y) / 8;
      assert x - y == 8 * d;
      assert x % 8 - y % 8 == 8 * (d - qx + qy);
    }
  }

  /** a and b are the same matrix. */
  predicate Same(a: Mono, b: Mono)
  {
    a.swap == b.swap && (a.e0 - b.e0) % 8 == 0 && (a.e1 - b.e1) % 8 == 0
  }

  /** Same is entrywise equality of the matrices. */
  lemma SameIsEntrywise(a: Mono, b: Mono)
    ensures Same(a, b) <==> forall r: nat, c: nat :: r < 2 && c < 2 ==> Entry(a, r, c) == Entry(b, r, c)
  {
    ModEq(a.e0, b.e0);
    ModEq(a.e1, b.e1);
    if forall r: nat, c: nat :: r < 2 && c < 2 ==> Entry(a, r, c) == Entry(b, r, c) {
      assert Entry(a, a.Row(0), 0) == Entry(b, a.Row(0), 0);
      assert a.swap == b.swap;
      assert Entry(a, a.Row(1), 1) == Entry(b, a.Row(1), 1);
    }
  }

  /** Each term of `y` multiplied by ω^e. */
  function ScaleTerms(y: seq<int>, e: int): (z: seq<int>)
    ensures |z| == |y|
  {
    seq(|y|, i requires 0 <= i < |y| => (y[i] + e) % 8)
  }

  /** The product of two formal sums of powers of ω. */
  function Times(x: seq<int>, y: seq<int>): seq<int>
  {
    if x == [] then [] else ScaleTerms(y, x[0]) + Times(x[1..], y)
  }

  /** Entry (r, c) of the matrix product a·b by the textbook rule a[r][0]·b[0][c] + a[r][1]·b[1][c]. */
  function ProductEntry(a: Mono, b: Mono, r: nat, c: nat): seq<int>
    requires r < 2 && c < 2
  {
    Times(Entry(a, r, 0), Entry(b, 0, c)) + Times(Entry(a, r, 1), Entry(b, 1, c))
  }

  /** The product a·b, that is b applied first and then a. */
  function Mul(a: Mono, b: Mono): Mono
  {
    Mono(a.swap != b.swap, b.e0 + a.Exp(b.Row(0)), b.e1 + a.Exp(b.Row(1)))
  }

  /** Mul is the matrix product: every entry agrees with the textbook rule. */
  lemma MulIsMatrixProduct(a: Mono, b: Mono, r: nat, c: nat)
    requires r < 2 && c < 2
    ensures Entry(Mul(a, b), r, c) == ProductEntry(a, b, r, c)
  {
    var k := b.Row(c);
    var t := (b.Exp(c) % 8 + a.Exp(k) % 8) % 8;
    assert t == (b.Exp(c) + a.Exp(k)) % 8;
    assert Mul(a, b).Exp(c) == b.Exp(c) + a.Exp(k);
    assert Mul(a, b).Row(c) == a.Row(k);
    if k == 0 {
      assert Entry(b, 1, c) == [];
      assert Times(Entry(a, r, 1), []) == [] by {
        if Entry(a, r, 1) != [] { assert Entry(a, r, 1)[1..] == []; }
      }
    } else {
      assert Entry(b, 0, c) == [];
      assert Times(Entry(a, r, 0), []) == [] by {
        if Entry(a, r, 0) != [] { assert Entry(a, r, 0)[1..] == []; }
      }
    }
    if a.Row(k) == r {
      assert Times(Entry(a, r, k), Entry(b, k, c)) == [t];
    } else {
      assert Entry(a, r, k) == [];
    }
  }

  const Identity: Mono := Mono(false, 0, 0)

  /** ω^p times m. */
  function Phase(m: Mono, p: int): (r: Mono)
    ensures r.swap == m.swap
  {
    Mono(m.swap, m.e0 + p, m.e1 + p)
  }

  /** a and b differ by a global phase: same pattern, and both columns shifted by the same power of ω. */
  predicate EqualUpToPhase(a: Mono, b: Mono)
  {
    a.swap == b.swap && ((a.e0 - b.e0) - (a.e1 - b.e1)) % 8 == 0
  }

  /** A global phase between such matrices is a power of ω, so this is equality up to e^(iα). */
  lemma EqualUpToPhaseIff(a: Mono, b: Mono)
    ensures EqualUpToPhase(a, b) <==> exists p :: 0 <= p < 8 && Same(a, Phase(b, p))
  {
    if EqualUpToPhase(a, b) {
      var p := (a.e0 - b.e0) % 8;
      ModEq(a.e0 - b.e0, p);
      ModEq(a.e0 - b.e0, a.e1 - b.e1);
      ModEq(a.e1 - b.e1, p);
      assert Same(a, Phase(b, p));
    }
    if exists p :: 0 <= p < 8 && Same(a, Phase(b, p)) {
      var p :| 0 <= p < 8 && Same(a, Phase(b, p));
      SamePhaseIsEqualUpToPhase(a, b, p);
    }
  }

  /** A matrix equal to ω^p·b is b up to a global phase. */
  lemma SamePhaseIsEqualUpToPhase(a: Mono, b: Mono, p: int)
    requires Same(a, Phase(b, p))
    ensures EqualUpToPhase(a, b)
  {
    ModEq(a.e0 - b.e0 - p, a.e1 - b.e1 - p);
  }

  /** RZ(φ) = diag(e^(-iφ/2), e^(iφ/2)); for φ = kπ/2 that is diag(ω^-k, ω^k). */
  function RzMatrix(phi: Angle): Mono
  {
    Mono(false, -phi, phi)
  }

  /**
   * RX(θ) = cos(θ/2)·I - i·sin(θ/2)·X.  For θ = mπ it is I, -iX, -I or iX
   * as m is 0, 1, 2 or 3 modulo 4; for an odd multiple of π/2 its
   * entries are ±1/√2 and it lies outside the monomial model.
   */
  function RxMatrix(theta: Angle): Option<Mono>
  {
    if theta % 2 != 0 then None
    else if (theta / 2) % 4 == 0 then Some(Mono(false, 0, 0))
    else if (theta / 2) % 4 == 1 then Some(Mono(true, 6, 6))
    else if (theta / 2) % 4 == 2 then Some(Mono(false, 4, 4))
    else Some(Mono(true, 2, 2))
  }

  function OpMatrix(op: Op): Option<Mono>
  {
    match op
    case RX(theta) => RxMatrix(theta)
    case RZ(phi) => Some(RzMatrix(phi))
    case Named(_) => None
  }

  /** The unitary of a one-qubit instruction sequence, the first instruction applied first. */
  function Unitary(s: seq<Instr>): Option<Mono>
  {
    if s == [] then Some(Identity)
    else match (OpMatrix(s[0].op), Unitary(s[1..]))
      case (Some(m), Some(rest)) => Some(Mul(rest, m))
      case _ => None
  }

  /** One step of Unitary: the first instruction's matrix, then the rest's. */
  lemma UnitaryStep(s: seq<Instr>, m: Mono, rest: Mono)
    requires s != [] && OpMatrix(s[0].op) == Some(m) && Unitary(s[1..]) == Some(rest)
    ensures Unitary(s) == Some(Mul(rest, m))
  {
  }

  /** The canonical matrix of each gate, when it is a monomial one; H is not. */
  function GateMatrix(k: Kind): Option<Mono>
  {
    match k
    case I => Some(Mono(false, 0, 0))  // [[1, 0], [0, 1]]
    case X => Some(Mono(true, 0, 0))   // [[0, 1], [1, 0]]
    case Y => Some(Mono(true, 2, 6))   // [[0, -i], [i, 0]]
    case Z => Some(Mono(false, 0, 4))  // [[1, 0], [0, -1]]
    case H => None
  }

  /** RZ(0) is the identity. */
  lemma QIGateIsI(q: Qubit)
    ensures Unitary(Expansion(I, q)).Some? && Same(Unitary(Expansion(I, q)).value, Phase(GateMatrix(I).value, 0))
  {
    var e := Expansion(I, q);
    assert e[0].op == RZ(Zero) && e[1..] == [];
    UnitaryStep(e, Mono(false, 0, 0), Identity);
    assert Mul(Identity, Mono(false, 0, 0)) == Identity;
  }

  /** RZ(-π), RX(π), RZ(π) applied in turn is i·X. */
  lemma QXGateIsX(q: Qubit)
    ensures Unitary(Expansion(X, q)).Some? && Same(Unitary(Expansion(X, q)).value, Phase(GateMatrix(X).value, 2))
  {
    var e := Expansion(X, q);
    assert e[0].op == RZ(-Pi) && e[1].op == RX(Pi) && e[2].op == RZ(Pi) && e[2..][1..] == [];
    UnitaryStep(e[2..], Mono(false, -2, 2), Identity);
    UnitaryStep(e[1..], Mono(true, 6, 6), Mono(false, -2, 2));
    UnitaryStep(e, Mono(false, 2, -2), Mono(true, 8, 4));
  }

  /** RZ(-π/2), RX(π), RZ(π/2) applied in turn is -i·Y. */
  lemma QYGateIsY(q: Qubit)
    ensures Unitary(Expansion(Y, q)).Some? && Same(Unitary(Expansion(Y, q)).value, Phase(GateMatrix(Y).value, 6))
  {
    var e := Expansion(Y, q);
    assert e[0].op == RZ(-HalfPi) && e[1].op == RX(Pi) && e[2].op == RZ(HalfPi) && e[2..][1..] == [];
    UnitaryStep(e[2..], Mono(false, -1, 1), Identity);
    UnitaryStep(e[1..], Mono(true, 6, 6), Mono(false, -1, 1));
    UnitaryStep(e, Mono(false, 1, -1), Mono(true, 7, 5));
  }

  /** RZ(π) is -i·Z. */
  lemma QZGateIsZ(q: Qubit)
    ensures Unitary(Expansion(Z, q)).Some? && Same(Unitary(Expansion(Z, q)).value, Phase(GateMatrix(Z).value, 6))
  {
    var e := Expansion(Z, q);
    assert e[0].op == RZ(Pi) && e[1..] == [];
    UnitaryStep(e, Mono(false, -2, 2), Identity);
    assert Mul(Identity, Mono(false, -2, 2)) == Mono(false, -2, 2);
  }

  /** The H rule starts with RX(π/2), whose entries are ±1/√2: it has no exact monomial unitary. */
  lemma QHGateOutsideModel(q: Qubit)
    ensures Unitary(Expansion(H, q)) == None
  {
    var e := Expansion(H, q);
    assert e[0].op == RX(HalfPi);
  }

  /** The rules of I, X, Y and Z reproduce their gates up to a global phase; H's is outside the model. */
  lemma ExpansionMatchesGate(k: Kind, q: Qubit)
    ensures k != H <==> Unitary(Expansion(k, q)).Some?
    ensures k != H ==> GateMatrix(k).Some? &&
                       EqualUpToPhase(Unitary(Expansion(k, q)).value, GateMatrix(k).value)
  {
    match k
    case I =>
      QIGateIsI(q);
      SamePhaseIsEqualUpToPhase(Unitary(Expansion(k, q)).value, GateMatrix(k).value, 0);
    case X =>
      QXGateIsX(q);
      SamePhaseIsEqualUpToPhase(Unitary(Expansion(k, q)).value, GateMatrix(k).value, 2);
    case Y =>
      QYGateIsY(q);
      SamePhaseIsEqualUpToPhase(Unitary(Expansion(k, q)).value, GateMatrix(k).value, 6);
    case Z =>
      QZGateIsZ(q);
      SamePhaseIsEqualUpToPhase(Unitary(Expansion(k, q)).value, GateMatrix(k).value, 6);
    case H =>
      QHGateOutsideModel(q);
  }
}
