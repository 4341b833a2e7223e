/** Single-qubit Pauli operators with a phase, their product table as the
    repository writes it, commutation, and the conjugation of Pauli strings
    by the Clifford gates X, Y, Z, H, CX (and CZ, which the phase-flip code
    uses). */
module Paulis {
  import opened Wrappers

  /** The phase quadrant: 0 is +1, 1 is +i, 2 is -1, 3 is -i. */
  type Sign = s: int | 0 <= s < 4

  /** `x` and `z` select the axis: I (neither), X, Z, Y (both). */
  datatype Pauli = Pauli(sign: Sign, x: bool, z: bool)

  const I: Pauli := Pauli(0, false, false)
  const X: Pauli := Pauli(0, true, false)
  const Y: Pauli := Pauli(0, true, true)
  const Z: Pauli := Pauli(0, false, true)

  /** A Pauli string: one entry per qubit. */
  type PString = seq<Pauli>

  /** The phase is dropped, the axis kept. */
  function Abs(p: Pauli): (r: Pauli)
    ensures r.sign == 0 && r.x == p.x && r.z == p.z
    ensures r in {I, X, Y, Z}
  {
    Pauli(0, p.x, p.z)
  }

  /** An identity carrying a phase other than +1. */
  predicate PhasedIdentity(p: Pauli) {
    !p.x && !p.z && p.sign != 0
  }

  /** The position of the axis in the order I, X, Y, Z. */
  function AxisIndex(p: Pauli): nat {
    if !p.x && !p.z then 0 else if !p.z then 1 else if p.x then 2 else 3
  }

  /** The products on which the source's `assert False` fires: a phased
      identity against an operator on a real axis. */
  predicate MulUndefined(a: Pauli, b: Pauli) {
    (PhasedIdentity(a) && Abs(b) != I) || (PhasedIdentity(b) && Abs(a) != I)
  }

  /** `a * b`; None where the source fails its assert. Same-axis products
      are the phase-free identity whatever the phases, and for two distinct
      axes the phase gains +1 when `a` comes before `b` in the order X, Y, Z
      and +3 otherwise (so X*Z has phase +i). */
  function Mul(a: Pauli, b: Pauli): (r: Option<Pauli>)
    ensures r.None? <==> MulUndefined(a, b)
    ensures a == I ==> r == Some(b)
    ensures b == I ==> r == Some(a)
    ensures a != I && b != I && Abs(a) == Abs(b) ==> r == Some(I)
    ensures Abs(a) != I && Abs(b) != I && Abs(a) != Abs(b) ==>
      r == Some(Pauli((a.sign + b.sign + (if AxisIndex(a) < AxisIndex(b) then 1 else 3)) % 4,
                      a.x != b.x, a.z != b.z))
  {
    if a == b then Some(I)
    else if a == I then Some(b)
    else if b == I then Some(a)
    else
      var (p, q) := (Abs(a), Abs(b));
      if p == q then Some(I)
      else if (p, q) == (X, Y) then Some(Pauli((a.sign + b.sign + 1) % 4, false, true))
      else if (p, q) == (X, Z) then Some(Pauli((a.sign + b.sign + 1) % 4, true, true))
      else if (p, q) == (Y, Z) then Some(Pauli((a.sign + b.sign + 1) % 4, true, false))
      else if (p, q) == (Y, X) then Some(Pauli((a.sign + b.sign + 3) % 4, false, true))
      else if (p, q) == (Z, X) then Some(Pauli((a.sign + b.sign + 3) % 4, true, true))
      else if (p, q) == (Z, Y) then Some(Pauli((a.sign + b.sign + 3) % 4, true, false))
      else None
  }

  /** The source's commutation test. Where the product is defined, it holds
      exactly when the two products agree; where it is not, it is false. */
  function Commutes(a: Pauli, b: Pauli): (r: bool)
    ensures Mul(a, b).Some? ==> (r <==> Mul(a, b) == Mul(b, a))
    ensures MulUndefined(a, b) ==> !r
  {
    a == b || a == I || b == I || Abs(a) == Abs(b)
  }

  lemma CommutesSymmetric(a: Pauli, b: Pauli)
    ensures Commutes(a, b) == Commutes(b, a)
  {
  }

  /** Away from phased identities, the test agrees with the symplectic
      form of the (x, z) bits. */
  lemma CommutesSymplectic(a: Pauli, b: Pauli)
    requires !PhasedIdentity(a) && !PhasedIdentity(b)
    ensures Commutes(a, b) <==> ((a.x && b.z) == (a.z && b.x))
  {
  }

  /** Every Pauli squares to the phase-free identity. */
  lemma MulSelfInverse(p: Pauli)
    ensures Mul(p, p) == Some(I)
  {
  }

  /** The product is not associative: (iX * X) * X is X but iX * (X * X)
      is iX. */
  lemma MulNotAssociative()
    ensures var iX := Pauli(1, true, false);
      Mul(Mul(iX, X).value, X) == Some(X) && Mul(iX, Mul(X, X).value) == Some(iX)
  {
  }

  /** Operators that are never a phased identity. */
  predicate Proper(p: Pauli) {
    !PhasedIdentity(p)
  }

  /** Products of proper operators are defined and proper. */
  lemma MulProperClosed(a: Pauli, b: Pauli)
    requires Proper(a) && Proper(b)
    ensures Mul(a, b).Some? && Proper(Mul(a, b).value)
  {
  }

  // ---------------------------------------------------------------------
  // Conjugation of a single entry

  function ConjX(p: Pauli): (r: Pauli)
    ensures r.x == p.x && r.z == p.z
    ensures r.sign == if p.z then (p.sign + 2) % 4 else p.sign
  {
    Pauli(if p.z then (p.sign + 2) % 4 else p.sign, p.x, p.z)
  }

  function ConjY(p: Pauli): (r: Pauli)
    ensures r.x == p.x && r.z == p.z
    ensures r.sign == if p.x != p.z then (p.sign + 2) % 4 else p.sign
  {
    Pauli(if p.x != p.z then (p.sign + 2) % 4 else p.sign, p.x, p.z)
  }

  function ConjZ(p: Pauli): (r: Pauli)
    ensures r.x == p.x && r.z == p.z
    ensures r.sign == if p.x then (p.sign + 2) % 4 else p.sign
  {
    Pauli(if p.x then (p.sign + 2) % 4 else p.sign, p.x, p.z)
  }

  function ConjH(p: Pauli): (r: Pauli)
    ensures r.x == p.z && r.z == p.x
    ensures r.sign == if p.x && p.z then (p.sign + 2) % 4 else p.sign
  {
    Pauli(if p.x && p.z then (p.sign + 2) % 4 else p.sign, p.z, p.x)
  }

  /** Conjugating an entry twice by the same single-qubit gate restores it. */
  lemma ConjInvolutions(p: Pauli)
    ensures ConjX(ConjX(p)) == p && ConjY(ConjY(p)) == p && ConjZ(ConjZ(p)) == p
    ensures ConjH(ConjH(p)) == p
  {
  }

  /** What conjugation means for a proper entry: X, Y and Z keep an entry
      that commutes with them and negate one that does not; H exchanges X
      and Z and negates Y. All four keep which entries commute. */
  lemma ConjugationMeaning(p: Pauli, q: Pauli)
    requires Proper(p) && Proper(q)
    ensures ConjX(p) == if Commutes(p, X) then p else Pauli((p.sign + 2) % 4, p.x, p.z)
    ensures ConjY(p) == if Commutes(p, Y) then p else Pauli((p.sign + 2) % 4, p.x, p.z)
    ensures ConjZ(p) == if Commutes(p, Z) then p else Pauli((p.sign + 2) % 4, p.x, p.z)
    ensures ConjH(X) == Z && ConjH(Z) == X && ConjH(Y) == Pauli(2, true, true) && ConjH(I) == I
    ensures Commutes(ConjX(p), ConjX(q)) == Commutes(p, q)
    ensures Commutes(ConjY(p), ConjY(q)) == Commutes(p, q)
    ensures Commutes(ConjZ(p), ConjZ(q)) == Commutes(p, q)
    ensures Commutes(ConjH(p), ConjH(q)) == Commutes(p, q)
  {
  }

  // ---------------------------------------------------------------------
  // In-place conjugation by X, Y, Z

  method ByX(env: array<Pauli>, idx: nat)
    requires idx < env.Length
    modifies env
    ensures env[..] == old(env[..])[idx := ConjX(old(env[idx]))]
  {
    var p := env[idx];
    var newSign: int := p.sign;
    if p.z {
      newSign := (newSign + 2) % 4;
    }
    env[idx] := Pauli(newSign, p.x, p.z);
  }

  method ByY(env: array<Pauli>, idx: nat)
    requires idx < env.Length
    modifies env
    ensures env[..] == old(env[..])[idx := ConjY(old(env[idx]))]
  {
    var p := env[idx];
    var newSign: int := p.sign;
    if p.z != p.x {
      newSign := (newSign + 2) % 4;
    }
    env[idx] := Pauli(newSign, p.x, p.z);
  }

  method ByZ(env: array<Pauli>, idx: nat)
    requires idx < env.Length
    modifies env
    ensures env[..] == old(env[..])[idx := ConjZ(old(env[idx]))]
  {
    var p := env[idx];
    var newSign: int := p.sign;
    if p.x {
      newSign := (newSign + 2) % 4;
    }
    env[idx] := Pauli(newSign, p.x, p.z);
  }

  /** Applying one of ByX, ByY, ByZ twice restores the string. */
  lemma ByXYZTwice(s: PString, idx: nat)
    requires idx < |s|
    ensures s[idx := ConjX(s[idx])][idx := ConjX(ConjX(s[idx]))] == s
    ensures s[idx := ConjY(s[idx])][idx := ConjY(ConjY(s[idx]))] == s
    ensures s[idx := ConjZ(s[idx])][idx := ConjZ(ConjZ(s[idx]))] == s
  {
    ConjInvolutions(s[idx]);
  }

  // ---------------------------------------------------------------------
  // Conjugation by H, CX and CZ, building a fresh string

  /** The string after H on qubit `idx`. */
  function HAt(s: PString, idx: nat): PString
    requires idx < |s|
  {
    s[idx := ConjH(s[idx])]
  }

  /** The string after CX(ctl, tgt): ctl.z ^= tgt.z and tgt.x ^= ctl.x,
      both signs kept; when ctl == tgt the control's entry wins. */
  function CxAt(s: PString, ctl: nat, tgt: nat): PString
    requires ctl < |s| && tgt < |s|
  {
    var (c, t) := (s[ctl], s[tgt]);
    s[tgt := Pauli(t.sign, t.x != c.x, t.z)][ctl := Pauli(c.sign, c.x, c.z != t.z)]
  }

  /** The string after CZ(a, b), in the same phase-free style as CX:
      a.z ^= b.x and b.z ^= a.x. */
  function CzAt(s: PString, a: nat, b: nat): PString
    requires a < |s| && b < |s|
  {
    var (p, q) := (s[a], s[b]);
    s[b := Pauli(q.sign, q.x, q.z != p.x)][a := Pauli(p.sign, p.x, p.z != q.x)]
  }

  method ByH(s: PString, idx: nat) returns (r: PString)
    requires idx < |s|
    ensures r == HAt(s, idx)
  {
    var p := s[idx];
    var newSign: int := p.sign;
    if p.x && p.z {
      newSign := (newSign + 2) % 4;
    }
    r := [];
    var j := 0;
    while j < |s|
      invariant 0 <= j <= |s| && |r| == j
      invariant forall k :: 0 <= k < j ==> r[k] == HAt(s, idx)[k]
    {
      if j == idx {
        r := r + [Pauli(newSign, p.z, p.x)];
      } else {
        r := r + [s[j]];
      }
      j := j + 1;
    }
  }

  method ByCx(s: PString, ctl: nat, tgt: nat) returns (r: PString)
    requires ctl < |s| && tgt < |s|
    ensures r == CxAt(s, ctl, tgt)
  {
    var c, t := s[ctl], s[tgt];
    var newCtl := Pauli(c.sign, c.x, c.z != t.z);
    var newTgt := Pauli(t.sign, t.x != c.x, t.z);
    r := [];
    var j := 0;
    while j < |s|
      invariant 0 <= j <= |s| && |r| == j
      invariant forall k :: 0 <= k < j ==> r[k] == CxAt(s, ctl, tgt)[k]
    {
      if j == ctl {
        r := r + [newCtl];
      } else if j == tgt {
        r := r + [newTgt];
      } else {
        r := r + [s[j]];
      }
      j := j + 1;
    }
  }

  method ByCz(s: PString, a: nat, b: nat) returns (r: PString)
    requires a < |s| && b < |s|
    ensures r == CzAt(s, a, b)
  {
    var p, q := s[a], s[b];
    var newA := Pauli(p.sign, p.x, p.z != q.x);
    var newB := Pauli(q.sign, q.x, q.z != p.x);
    r := [];
    var j := 0;
    while j < |s|
      invariant 0 <= j <= |s| && |r| == j
      invariant forall k :: 0 <= k < j ==> r[k] == CzAt(s, a, b)[k]
    {
      if j == a {
        r := r + [newA];
      } else if j == b {
        r := r + [newB];
      } else {
        r := r + [s[j]];
      }
      j := j + 1;
    }
  }

  /** H at one position changes that entry only, swapping x and z and adding
      2 to the sign exactly for Y; applied twice it restores the string. */
  lemma HAtProperties(s: PString, idx: nat)
    requires idx < |s|
    ensures |HAt(s, idx)| == |s|
    ensures forall j :: 0 <= j < |s| && j != idx ==> HAt(s, idx)[j] == s[j]
    ensures HAt(s, idx)[idx].x == s[idx].z && HAt(s, idx)[idx].z == s[idx].x
    ensures HAt(s, idx)[idx].sign == if Abs(s[idx]) == Y then (s[idx].sign + 2) % 4 else s[idx].sign
    ensures HAt(HAt(s, idx), idx) == s
  {
    ConjInvolutions(s[idx]);
  }

  /** CX keeps the length, both signs and every other position, and for
      distinct qubits it is an involution. */
  lemma CxAtProperties(s: PString, ctl: nat, tgt: nat)
    requires ctl < |s| && tgt < |s| && ctl != tgt
    ensures |CxAt(s, ctl, tgt)| == |s|
    ensures forall j :: 0 <= j < |s| && j != ctl && j != tgt ==> CxAt(s, ctl, tgt)[j] == s[j]
    ensures CxAt(s, ctl, tgt)[ctl] == Pauli(s[ctl].sign, s[ctl].x, s[ctl].z != s[tgt].z)
    ensures CxAt(s, ctl, tgt)[tgt] == Pauli(s[tgt].sign, s[tgt].x != s[ctl].x, s[tgt].z)
    ensures CxAt(CxAt(s, ctl, tgt), ctl, tgt) == s
  {
  }

  /** CZ is symmetric in its qubits and, for distinct qubits, an
      involution. */
  lemma CzAtProperties(s: PString, a: nat, b: nat)
    requires a < |s| && b < |s| && a != b
    ensures CzAt(s, a, b) == CzAt(s, b, a)
    ensures CzAt(CzAt(s, a, b), a, b) == s
  {
  }
}
