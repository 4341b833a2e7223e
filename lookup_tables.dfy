/** Syndromes of Pauli errors against a stabilizer group, the depth-first
    lookup-table builder and the sign-aware syndrome update used by the
    decoders. */
module LookupTables {
  import opened Paulis

  /** A syndrome: one bit (0 or 1) per generator, in group order. */
  type Syndrome = seq<int>

  /** Syndrome to correction. */
  type Table = map<Syndrome, PString>

  function Min(a: nat, b: nat): nat { if a <= b then a else b }

  function Zeros(n: nat): (r: Syndrome)
    ensures |r| == n && forall k :: 0 <= k < n ==> r[k] == 0
  {
    seq(n, _ => 0)
  }

  function IdentityString(n: nat): (r: PString)
    ensures |r| == n && forall k :: 0 <= k < n ==> r[k] == I
  {
    seq(n, _ => I)
  }

  /** The all-identity string of length `n` with `p` at position `i`. */
  function Single(n: nat, i: nat, p: Pauli): (r: PString)
    requires i < n
    ensures |r| == n && r[i] == p && forall k :: 0 <= k < n && k != i ==> r[k] == I
  {
    IdentityString(n)[i := p]
  }

  /** Number of non-identity positions. */
  function Weight(e: PString): nat
  {
    if e == [] then 0 else Weight(e[..|e| - 1]) + (if e[|e| - 1] != I then 1 else 0)
  }

  /** Only I, X and Z occur: the errors the table builder tries. */
  predicate XZOnly(e: PString) {
    forall k :: 0 <= k < |e| ==> e[k] == I || e[k] == X || e[k] == Z
  }

  lemma {:induction false} WeightUpdate(e: PString, i: nat, p: Pauli)
    requires i < |e|
    ensures Weight(e[i := p]) + (if e[i] != I then 1 else 0) == Weight(e) + (if p != I then 1 else 0)
    decreases |e|
  {
    var m := |e| - 1;
    if i == m {
      assert e[i := p][..m] == e[..m];
    } else {
      assert e[i := p][..m] == e[..m][i := p];
      WeightUpdate(e[..m], i, p);
    }
  }

  lemma {:induction false} WeightIdentity(n: nat)
    ensures Weight(IdentityString(n)) == 0
  {
    if n > 0 {
      assert IdentityString(n)[..n - 1] == IdentityString(n - 1);
      WeightIdentity(n - 1);
    }
  }

  // ---------------------------------------------------------------------
  // eval and the syndrome of an error

  /** Positions among the first `k` where the generator and the error do
      not commute. */
  function AnticommutingUpTo(s: PString, e: PString, k: nat): nat
    requires k <= |s| && k <= |e|
  {
    if k == 0 then 0
    else AnticommutingUpTo(s, e, k - 1) + (if Commutes(s[k - 1], e[k - 1]) then 0 else 1)
  }

  /** The anticommuting count of two three-qubit strings, position by
      position. */
  lemma Count3(s: PString, e: PString)
    requires |s| == 3 && |e| == 3
    ensures AnticommutingUpTo(s, e, 3) ==
              (if Commutes(s[0], e[0]) then 0 else 1) + (if Commutes(s[1], e[1]) then 0 else 1) +
              (if Commutes(s[2], e[2]) then 0 else 1)
  {
    assert AnticommutingUpTo(s, e, 1) == (if Commutes(s[0], e[0]) then 0 else 1);
  }

  /** Parity of the anticommuting positions over the common prefix (Python's
      `zip` stops at the shorter list). */
  function SyndromeBit(s: PString, e: PString): int {
    AnticommutingUpTo(s, e, Min(|s|, |e|)) % 2
  }

  function SyndromeOf(group: seq<PString>, e: PString): (r: Syndrome)
    ensures |r| == |group| && forall k :: 0 <= k < |group| ==> r[k] == SyndromeBit(group[k], e)
  {
    seq(|group|, k requires 0 <= k < |group| => SyndromeBit(group[k], e))
  }

  /** The nested `eval` of the table builder. */
  method Eval(stabilizer: PString, error: PString) returns (value: int)
    ensures value == SyndromeBit(stabilizer, error)
    ensures value == 0 || value == 1
  {
    var count := 0;
    var j := 0;
    while j < Min(|stabilizer|, |error|)
      invariant 0 <= j <= Min(|stabilizer|, |error|)
      invariant count == AnticommutingUpTo(stabilizer, error, j)
    {
      if !Commutes(stabilizer[j], error[j]) {
        count := count + 1;
      }
      j := j + 1;
    }
    value := count % 2;
  }

  /** The syndrome tuple, one `eval` per generator. */
  method EvalSyndrome(group: seq<PString>, error: PString) returns (syndrome: Syndrome)
    ensures syndrome == SyndromeOf(group, error)
  {
    syndrome := [];
    var k := 0;
    while k < |group|
      invariant 0 <= k <= |group|
      invariant syndrome == SyndromeOf(group, error)[..k]
    {
      var bit := Eval(group[k], error);
      syndrome := syndrome + [bit];
      k := k + 1;
    }
  }

  lemma {:induction false} AnticommutingIdentity(s: PString, n: nat, k: nat)
    requires k <= |s| && k <= n
    ensures AnticommutingUpTo(s, IdentityString(n), k) == 0
  {
    if k > 0 {
      AnticommutingIdentity(s, n, k - 1);
    }
  }

  lemma {:induction false} AnticommutingSingle(s: PString, n: nat, i: nat, p: Pauli, k: nat)
    requires i < n && k <= |s| && k <= n
    ensures AnticommutingUpTo(s, Single(n, i, p), k) == if i < k && !Commutes(s[i], p) then 1 else 0
  {
    if k > 0 {
      AnticommutingSingle(s, n, i, p, k - 1);
    }
  }

  /** The identity error has the trivial syndrome. */
  lemma SyndromeOfIdentity(group: seq<PString>, n: nat)
    ensures SyndromeOf(group, IdentityString(n)) == Zeros(|group|)
  {
    forall k | 0 <= k < |group| ensures SyndromeBit(group[k], IdentityString(n)) == 0 {
      AnticommutingIdentity(group[k], n, Min(|group[k]|, n));
    }
  }

  /** A single-position error flips exactly the generators that do not
      commute with it there. */
  lemma SyndromeOfSingle(group: seq<PString>, n: nat, i: nat, p: Pauli)
    requires i < n
    ensures forall k :: 0 <= k < |group| ==>
              SyndromeOf(group, Single(n, i, p))[k] ==
              if i < |group[k]| && !Commutes(group[k][i], p) then 1 else 0
  {
    forall k | 0 <= k < |group|
      ensures SyndromeBit(group[k], Single(n, i, p)) ==
              if i < |group[k]| && !Commutes(group[k][i], p) then 1 else 0
    {
      AnticommutingSingle(group[k], n, i, p, Min(|group[k]|, n));
    }
  }

  // ---------------------------------------------------------------------
  // build_lookup_table

  /** A table entry the builder may store: the right length, only I/X/Z,
      at least one and at most `maxWeight` non-identity positions, and its
      own syndrome is its key. */
  ghost predicate ValidEntry(group: seq<PString>, n: nat, s: Syndrome, e: PString, maxWeight: nat) {
    |e| == n && XZOnly(e) && SyndromeOf(group, e) == s && 1 <= Weight(e) <= maxWeight
  }

  /** Every key of `t` is kept, with its value, in `t'`. */
  ghost predicate Extends(t: Table, t': Table) {
    forall s :: s in t ==> s in t' && t'[s] == t[s]
  }

  /** The first error tried at this level: `error[i]` set to `e`, the
      syndrome stored unless it is trivial or already present, then the
      search one level deeper. */
  method Visit(group: seq<PString>, error: array<Pauli>, table: Table, d: nat, i: nat, e: Pauli)
    returns (table': Table)
    requires i < error.Length && d > 0 && (e == X || e == Z)
    requires XZOnly(error[..])
    requires Zeros(|group|) in table
    modifies error
    decreases d, 0
    ensures error[..] == old(error[..])[i := e]
    ensures Extends(table, table')
    ensures SyndromeOf(group, old(error[..])[i := e]) in table'
    ensures forall s :: s in table' && s !in table ==>
              ValidEntry(group, error.Length, s, table'[s], Weight(old(error[..])[i := e]) + d - 1)
  {
    ghost var e1 := old(error[..])[i := e];
    ghost var bound := Weight(e1) + d - 1;
    error[i] := e;
    assert error[..] == e1;
    assert XZOnly(e1);
    var syndrome := EvalSyndrome(group, error[..]);
    table' := table;
    if syndrome == Zeros(|group|) {
      // trivial syndrome: nothing stored
    } else if syndrome in table {
      // first writer wins
    } else {
      WeightUpdate(old(error[..]), i, e);
      WeightUpdate(e1, i, I);
      assert ValidEntry(group, error.Length, syndrome, e1, bound);
      table' := table[syndrome := error[..]];
    }
    assert syndrome in table';
    assert forall s :: s in table' && s !in table ==> ValidEntry(group, error.Length, s, table'[s], bound);
    var deeper := FindSyndromes(group, error, table', d - 1);
    NewEntriesCompose(group, error.Length, table, table', deeper, bound);
    table' := deeper;
  }

  lemma NewEntriesCompose(group: seq<PString>, n: nat, t0: Table, t1: Table, t2: Table, bound: nat)
    requires Extends(t0, t1) && Extends(t1, t2)
    requires forall s :: s in t1 && s !in t0 ==> ValidEntry(group, n, s, t1[s], bound)
    requires forall s :: s in t2 && s !in t1 ==> ValidEntry(group, n, s, t2[s], bound)
    ensures Extends(t0, t2)
    ensures forall s :: s in t2 && s !in t0 ==> ValidEntry(group, n, s, t2[s], bound)
  {
  }

  /** One turn of `find_syndromes`' loop at an identity position `i`: X
      then Z tried there, and `error[i]` reset. */
  method TryPosition(group: seq<PString>, error: array<Pauli>, table: Table, d: nat, i: nat)
    returns (table': Table)
    requires i < error.Length && d > 0 && error[i] == I
    requires XZOnly(error[..])
    requires Zeros(|group|) in table
    modifies error
    decreases d, 1
    ensures error[..] == old(error[..])
    ensures Extends(table, table')
    ensures SyndromeOf(group, old(error[..])[i := X]) in table' && SyndromeOf(group, old(error[..])[i := Z]) in table'
    ensures forall s :: s in table' && s !in table ==>
              ValidEntry(group, error.Length, s, table'[s], Weight(old(error[..])) + d)
  {
    ghost var e0 := error[..];
    WeightUpdate(e0, i, X);
    WeightUpdate(e0, i, Z);
    var t1 := Visit(group, error, table, d, i, X);
    assert e0[i := X][i := Z] == e0[i := Z];
    var t2 := Visit(group, error, t1, d, i, Z);
    NewEntriesCompose(group, error.Length, table, t1, t2, Weight(e0) + d);
    error[i] := I;
    assert error[..] == e0;
    table' := t2;
  }

  /** `find_syndromes`: depth-first over the identity positions of `error`,
      trying X then Z at each, `d` levels deep; `error` is restored. */
  method FindSyndromes(group: seq<PString>, error: array<Pauli>, table: Table, d: nat)
    returns (table': Table)
    requires XZOnly(error[..])
    requires Zeros(|group|) in table
    modifies error
    decreases d, 2
    ensures error[..] == old(error[..])
    ensures d == 0 ==> table' == table
    ensures Extends(table, table')
    ensures forall s :: s in table' && s !in table ==>
              ValidEntry(group, error.Length, s, table'[s], Weight(error[..]) + d)
    ensures d > 0 ==> forall i :: 0 <= i < error.Length && error[i] == I ==>
              SyndromeOf(group, error[..][i := X]) in table' && SyndromeOf(group, error[..][i := Z]) in table'
  {
    table' := table;
    if d == 0 {
      return;
    }
    ghost var e0 := error[..];
    var i := 0;
    while i < error.Length
      invariant 0 <= i <= error.Length
      invariant error[..] == e0
      invariant Extends(table, table')
      invariant forall s :: s in table' && s !in table ==>
                  ValidEntry(group, error.Length, s, table'[s], Weight(e0) + d)
      invariant forall k :: 0 <= k < i && e0[k] == I ==>
                  SyndromeOf(group, e0[k := X]) in table' && SyndromeOf(group, e0[k := Z]) in table'
    {
      if error[i] == I {
        var t := TryPosition(group, error, table', d, i);
        NewEntriesCompose(group, error.Length, table, table', t, Weight(e0) + d);
        table' := t;
      }
      i := i + 1;
    }
  }

  /** What the builder guarantees of every entry: it has the generators'
      length, only I/X/Z, weight at most `distance` (at least 1 off the
      trivial key), and it reproduces its key. */
  ghost predicate SoundTable(group: seq<PString>, distance: nat, table: Table)
    requires |group| > 0
  {
    forall s :: s in table ==>
      |table[s]| == |group[0]| && XZOnly(table[s]) && SyndromeOf(group, table[s]) == s &&
      Weight(table[s]) <= distance && (s != Zeros(|group|) ==> 1 <= Weight(table[s]))
  }

  /** `build_lookup_table`. */
  method BuildLookupTable(group: seq<PString>, distance: nat) returns (table: Table)
    ensures |group| == 0 ==> table == map[]
    ensures |group| > 0 ==> SoundTable(group, distance, table)
    ensures |group| > 0 ==> Zeros(|group|) in table && table[Zeros(|group|)] == IdentityString(|group[0]|)
    ensures |group| > 0 && distance == 0 ==> table.Keys == {Zeros(|group|)}
    ensures |group| > 0 && distance > 0 ==> forall i :: 0 <= i < |group[0]| ==>
              SyndromeOf(group, Single(|group[0]|, i, X)) in table &&
              SyndromeOf(group, Single(|group[0]|, i, Z)) in table
  {
    if |group| == 0 {
      return map[];
    }
    var n := |group[0]|;
    var error := new Pauli[n](_ => I);
    assert error[..] == IdentityString(n);
    var trivial := Zeros(|group|);
    // The trivial entry is the working error list itself in the source; it
    // is all-identity again once the search returns.
    table := map[trivial := error[..]];
    ghost var t0 := table;
    SyndromeOfIdentity(group, n);
    WeightIdentity(n);
    table := FindSyndromes(group, error, table, distance);
    assert Weight(error[..]) + distance == distance && error.Length == |group[0]|;
    BuiltTableSound(group, distance, t0, table);
    forall i | 0 <= i < n && distance > 0
      ensures SyndromeOf(group, Single(n, i, X)) in table && SyndromeOf(group, Single(n, i, Z)) in table
    {
      assert error[i] == I;
      assert error[..][i := X] == Single(n, i, X);
      assert error[..][i := Z] == Single(n, i, Z);
    }
  }

  lemma BuiltTableSound(group: seq<PString>, distance: nat, t0: Table, table: Table)
    requires |group| > 0
    requires t0 == map[Zeros(|group|) := IdentityString(|group[0]|)]
    requires Extends(t0, table)
    requires forall s :: s in table && s !in t0 ==> ValidEntry(group, |group[0]|, s, table[s], distance)
    ensures SoundTable(group, distance, table)
  {
    SyndromeOfIdentity(group, |group[0]|);
    WeightIdentity(|group[0]|);
    forall s | s in table
      ensures |table[s]| == |group[0]| && XZOnly(table[s]) && SyndromeOf(group, table[s]) == s
      ensures Weight(table[s]) <= distance && (s != Zeros(|group|) ==> 1 <= Weight(table[s]))
    {
      if s !in t0 {
        assert ValidEntry(group, |group[0]|, s, table[s], distance);
      }
    }
  }

  // ---------------------------------------------------------------------
  // update_syndrome_value

  /** Over the first `k` positions: for each that does not commute, one
      plus half of each sign (so a negative sign adds one more flip). */
  function PenaltyUpTo(s: PString, e: PString, k: nat): nat
    requires k <= |s| && k <= |e|
  {
    if k == 0 then 0
    else PenaltyUpTo(s, e, k - 1) +
         (if Commutes(s[k - 1], e[k - 1]) then 0 else 1 + s[k - 1].sign / 2 + e[k - 1].sign / 2)
  }

  function UpdatedValue(value: int, syndrome: PString, error: PString): int {
    (value + PenaltyUpTo(syndrome, error, Min(|syndrome|, |error|))) % 2
  }

  /** `update_syndrome_value`. */
  method UpdateSyndromeValue(value: int, syndrome: PString, error: PString) returns (r: int)
    ensures r == UpdatedValue(value, syndrome, error)
    ensures r == 0 || r == 1
  {
    r := value;
    var j := 0;
    while j < Min(|syndrome|, |error|)
      invariant 0 <= j <= Min(|syndrome|, |error|)
      invariant r == value + PenaltyUpTo(syndrome, error, j)
    {
      if !Commutes(syndrome[j], error[j]) {
        r := r + 1 + syndrome[j].sign / 2 + error[j].sign / 2;
      }
      j := j + 1;
    }
    r := r % 2;
  }

  lemma {:induction false} PenaltyCommuting(s: PString, e: PString, k: nat)
    requires k <= |s| && k <= |e|
    requires forall j :: 0 <= j < k ==> Commutes(s[j], e[j])
    ensures PenaltyUpTo(s, e, k) == 0
  {
    if k > 0 {
      PenaltyCommuting(s, e, k - 1);
    }
  }

  lemma {:induction false} PenaltyUnsigned(s: PString, e: PString, k: nat)
    requires k <= |s| && k <= |e|
    requires forall j :: 0 <= j < k ==> s[j].sign < 2 && e[j].sign < 2
    ensures PenaltyUpTo(s, e, k) == AnticommutingUpTo(s, e, k)
  {
    if k > 0 {
      PenaltyUnsigned(s, e, k - 1);
      assert s[k - 1].sign / 2 == 0 && e[k - 1].sign / 2 == 0;
    }
  }

  /** The updated value is a bit; an error that commutes with the operator
      everywhere leaves the value's parity; with signs 0 or 1 only, it is
      the value plus the operator's syndrome bit. */
  lemma UpdatedValueProperties(value: int, s: PString, e: PString)
    ensures UpdatedValue(value, s, e) == 0 || UpdatedValue(value, s, e) == 1
    ensures (forall j :: 0 <= j < Min(|s|, |e|) ==> Commutes(s[j], e[j])) ==>
              UpdatedValue(value, s, e) == value % 2
    ensures (forall j :: 0 <= j < Min(|s|, |e|) ==> s[j].sign < 2 && e[j].sign < 2) ==>
              UpdatedValue(value, s, e) == (value + SyndromeBit(s, e)) % 2
  {
    var m := Min(|s|, |e|);
    if forall j :: 0 <= j < m ==> Commutes(s[j], e[j]) {
      PenaltyCommuting(s, e, m);
    }
    if forall j :: 0 <= j < m ==> s[j].sign < 2 && e[j].sign < 2 {
      PenaltyUnsigned(s, e, m);
    }
  }
}
