/** The older gadget library of the three-qubit repetition code. It has its
    own context (blocks, a measurement counter and the tracked generators,
    with no lookup memo), a lookup table of single-position errors built
    last-writer-wins, and the gadgets `prepare_zero`, `x`, `h`, `cx` and
    `measure_z`. */
module RepetitionGadgets {
  import opened Wrappers
  import opened Paulis
  import opened Circuit
  import opened LookupTables
  import opened Decoders
  import opened Stabilizers
  import Rep3Phase

  const ZZI: PString := [Z, Z, I]
  const ZIZ: PString := [Z, I, Z]
  const LogicalX: PString := [X, X, X]
  const ReadoutOp: PString := [Z, I, I]
  const ZName := "z"

  // ---------------------------------------------------------------------
  // build_error_lookup

  /** The Paulis the table builder tries, in its order. */
  const ErrorOrder: seq<Pauli> := [Y, Z, X, I]

  /** `p` at each position in turn. */
  function Row(p: Pauli, n: nat): (r: seq<PString>)
    ensures |r| == n && forall i :: 0 <= i < n ==> r[i] == Single(n, i, p)
  {
    seq(n, i requires 0 <= i < n => Single(n, i, p))
  }

  /** The rows of the Paulis `ps`, one after the other. */
  function Rows(ps: seq<Pauli>, n: nat): seq<PString>
    decreases |ps|
  {
    if ps == [] then [] else Rows(ps[..|ps| - 1], n) + Row(ps[|ps| - 1], n)
  }

  /** One more Pauli adds its row at the end. */
  lemma RowsStep(ps: seq<Pauli>, k: nat, n: nat)
    requires k < |ps|
    ensures Rows(ps[..k + 1], n) == Rows(ps[..k], n) + Row(ps[k], n)
  {
    assert ps[..k + 1][..k] == ps[..k];
  }

  /** The table after writing each error of `errors` in turn under its
      syndrome; a later write to the same syndrome replaces the earlier. */
  function Written(table: Table, group: seq<PString>, errors: seq<PString>): Table
    decreases |errors|
  {
    if errors == [] then table
    else
      var m := |errors| - 1;
      Written(table, group, errors[..m])[SyndromeOf(group, errors[m]) := errors[m]]
  }

  /** The table `build_error_lookup` returns: empty for an empty group,
      otherwise every single-position error over the length of the first
      generator. */
  function ErrorLookup(group: seq<PString>): Table {
    if group == [] then map[] else Written(map[], group, Rows(ErrorOrder, |group[0]|))
  }

  lemma {:induction false} WrittenAppend(t: Table, group: seq<PString>, a: seq<PString>, b: seq<PString>)
    ensures Written(t, group, a + b) == Written(Written(t, group, a), group, b)
    decreases |b|
  {
    if b == [] {
      assert a + b == a;
    } else {
      var m := |b| - 1;
      assert (a + b)[..|a + b| - 1] == a + b[..m];
      WrittenAppend(t, group, a, b[..m]);
    }
  }

  /** The inner loop of `build_error_lookup`: `p` at each position. */
  method WriteRow(table: Table, group: seq<PString>, p: Pauli, n: nat) returns (table': Table)
    ensures table' == Written(table, group, Row(p, n))
  {
    table' := table;
    var i := 0;
    while i < n
      invariant 0 <= i <= n
      invariant table' == Written(table, group, Row(p, n)[..i])
    {
      var error := Single(n, i, p);
      var syndrome := EvalSyndrome(group, error);
      assert Row(p, n)[..i + 1][..i] == Row(p, n)[..i];
      table' := table'[syndrome := error];
      i := i + 1;
    }
    assert Row(p, n)[..i] == Row(p, n);
  }

  /** `build_error_lookup`: for each Pauli of the order and each position,
      the single error goes in under its syndrome. */
  method BuildErrorLookup(group: seq<PString>) returns (table: Table)
    ensures table == ErrorLookup(group)
  {
    if group == [] {
      return map[];
    }
    var n := |group[0]|;
    table := map[];
    var pi := 0;
    while pi < |ErrorOrder|
      invariant 0 <= pi <= |ErrorOrder|
      invariant table == Written(map[], group, Rows(ErrorOrder[..pi], n))
    {
      table := WriteRow(table, group, ErrorOrder[pi], n);
      RowsStep(ErrorOrder, pi, n);
      WrittenAppend(map[], group, Rows(ErrorOrder[..pi], n), Row(ErrorOrder[pi], n));
      pi := pi + 1;
    }
    assert ErrorOrder[..pi] == ErrorOrder;
  }

  /** Every entry written over an empty start is one of the errors, and
      its syndrome is its key. */
  lemma {:induction false} WrittenSound(group: seq<PString>, errors: seq<PString>)
    ensures forall s :: s in Written(map[], group, errors) ==>
              Written(map[], group, errors)[s] in errors && SyndromeOf(group, Written(map[], group, errors)[s]) == s
    decreases |errors|
  {
    if errors != [] {
      var m := |errors| - 1;
      WrittenSound(group, errors[..m]);
      forall s | s in Written(map[], group, errors[..m]) ensures Written(map[], group, errors[..m])[s] in errors {
        assert Written(map[], group, errors[..m])[s] in errors[..m];
      }
    }
  }

  /** Last writer wins: an error written after every other error with the
      same syndrome is the entry under that syndrome. */
  lemma {:induction false} WrittenLastWins(group: seq<PString>, errors: seq<PString>, j: nat)
    requires j < |errors|
    requires forall j' :: j < j' < |errors| ==> SyndromeOf(group, errors[j']) != SyndromeOf(group, errors[j])
    ensures SyndromeOf(group, errors[j]) in Written(map[], group, errors)
    ensures Written(map[], group, errors)[SyndromeOf(group, errors[j])] == errors[j]
    decreases |errors|
  {
    var m := |errors| - 1;
    var key := SyndromeOf(group, errors[j]);
    assert Written(map[], group, errors) == Written(map[], group, errors[..m])[SyndromeOf(group, errors[m]) := errors[m]];
    if j < m {
      var prefix := errors[..m];
      assert prefix[j] == errors[j];
      forall j' | j < j' < m ensures SyndromeOf(group, prefix[j']) != SyndromeOf(group, prefix[j]) {
        assert prefix[j'] == errors[j'];
      }
      WrittenLastWins(group, prefix, j);
      assert SyndromeOf(group, errors[m]) != key;
    }
  }

  /** The writes are single-position errors of the tried Paulis. */
  lemma {:induction false} RowsSingles(ps: seq<Pauli>, n: nat)
    ensures forall e :: e in Rows(ps, n) ==> exists i, a :: 0 <= i < n && 0 <= a < |ps| && e == Single(n, i, ps[a])
    decreases |ps|
  {
    if ps != [] {
      var m := |ps| - 1;
      RowsSingles(ps[..m], n);
      forall e | e in Rows(ps, n) ensures exists i, a :: 0 <= i < n && 0 <= a < |ps| && e == Single(n, i, ps[a]) {
        if e in Rows(ps[..m], n) {
          var i, a :| 0 <= i < n && 0 <= a < m && e == Single(n, i, ps[..m][a]);
          assert ps[..m][a] == ps[a];
        } else {
          var i :| 0 <= i < n && Row(ps[m], n)[i] == e;
          assert e == Single(n, i, ps[m]);
        }
      }
    }
  }

  /** The table holds, under every syndrome, an error of that syndrome that
      is one tried Pauli at one position (the identity for `I`); and for a
      non-empty group of non-empty generators the trivial syndrome holds
      the identity, the last write. */
  lemma ErrorLookupProperties(group: seq<PString>)
    ensures forall s :: s in ErrorLookup(group) ==>
              SyndromeOf(group, ErrorLookup(group)[s]) == s &&
              exists i, a :: 0 <= i < |group[0]| && 0 <= a < 4 && ErrorLookup(group)[s] == Single(|group[0]|, i, ErrorOrder[a])
    ensures |group| > 0 && |group[0]| > 0 ==>
              Zeros(|group|) in ErrorLookup(group) && ErrorLookup(group)[Zeros(|group|)] == IdentityString(|group[0]|)
  {
    if group != [] {
      var n := |group[0]|;
      var errors := Rows(ErrorOrder, n);
      WrittenSound(group, errors);
      RowsSingles(ErrorOrder, n);
      if n > 0 {
        assert errors == Rows(ErrorOrder[..3], n) + Row(I, n);
        var last := |errors| - 1;
        assert errors[last] == Row(I, n)[n - 1] == IdentityString(n);
        SyndromeOfIdentity(group, n);
        WrittenLastWins(group, errors, last);
      }
    }
  }

  /** Writing three errors. */
  lemma Written3(t: Table, group: seq<PString>, es: seq<PString>)
    requires |es| == 3
    ensures Written(t, group, es) ==
              t[SyndromeOf(group, es[0]) := es[0]][SyndromeOf(group, es[1]) := es[1]][SyndromeOf(group, es[2]) := es[2]]
  {
    assert es[..2][..1] == es[..1];
    assert es[..1][..0] == [];
    assert Written(t, group, es[..1]) == t[SyndromeOf(group, es[0]) := es[0]];
    assert Written(t, group, es[..2]) == t[SyndromeOf(group, es[0]) := es[0]][SyndromeOf(group, es[1]) := es[1]];
  }

  /** The syndromes of the single errors under ZZI, ZIZ. */
  lemma BitFlipSyndromes(p: Pauli)
    requires p == X || p == Y
    ensures SyndromeOf([ZZI, ZIZ], Single(3, 0, p)) == [1, 1]
    ensures SyndromeOf([ZZI, ZIZ], Single(3, 1, p)) == [1, 0]
    ensures SyndromeOf([ZZI, ZIZ], Single(3, 2, p)) == [0, 1]
  {
    SyndromeOfSingle([ZZI, ZIZ], 3, 0, p);
    SyndromeOfSingle([ZZI, ZIZ], 3, 1, p);
    SyndromeOfSingle([ZZI, ZIZ], 3, 2, p);
  }

  lemma TrivialSyndromes(p: Pauli)
    requires p == Z || p == I
    ensures SyndromeOf([ZZI, ZIZ], Single(3, 0, p)) == [0, 0]
    ensures SyndromeOf([ZZI, ZIZ], Single(3, 1, p)) == [0, 0]
    ensures SyndromeOf([ZZI, ZIZ], Single(3, 2, p)) == [0, 0]
  {
    SyndromeOfSingle([ZZI, ZIZ], 3, 0, p);
    SyndromeOfSingle([ZZI, ZIZ], 3, 1, p);
    SyndromeOfSingle([ZZI, ZIZ], 3, 2, p);
  }

  /** With the generators ZZI, ZIZ the table holds exactly the identity and
      the three single bit flips: the Y entries are overwritten by the X
      entries with the same syndrome and the Z entries by the identity. */
  lemma BitFlipTable()
    ensures ErrorLookup([ZZI, ZIZ]) ==
              map[[0, 0] := [I, I, I], [1, 1] := [X, I, I], [1, 0] := [I, X, I], [0, 1] := [I, I, X]]
  {
    var group := [ZZI, ZIZ];
    ErrorLookupByRows(group);
    YZRowKeys();
    XIRowsOverwrite(Written(Written(map[], group, Row(Y, 3)), group, Row(Z, 3)));
  }

  /** The four syndromes of ZZI, ZIZ. */
  const BitFlipKeys: set<Syndrome> := {[0, 0], [1, 1], [1, 0], [0, 1]}

  /** The Y and Z rows only write the four syndromes. */
  lemma YZRowKeys()
    ensures Written(Written(map[], [ZZI, ZIZ], Row(Y, 3)), [ZZI, ZIZ], Row(Z, 3)).Keys <= BitFlipKeys
  {
    var group := [ZZI, ZIZ];
    BitFlipSyndromes(Y);
    TrivialSyndromes(Z);
    Written3(map[], group, Row(Y, 3));
    Written3(Written(map[], group, Row(Y, 3)), group, Row(Z, 3));
  }

  /** The X and I rows overwrite every one of the four syndromes. */
  lemma XIRowsOverwrite(t: Table)
    requires t.Keys <= BitFlipKeys
    ensures Written(Written(t, [ZZI, ZIZ], Row(X, 3)), [ZZI, ZIZ], Row(I, 3)) ==
              map[[0, 0] := [I, I, I], [1, 1] := [X, I, I], [1, 0] := [I, X, I], [0, 1] := [I, I, X]]
  {
    XRowWrites(t);
    var x := t[[1, 1] := [X, I, I]][[1, 0] := [I, X, I]][[0, 1] := [I, I, X]];
    IRowWrites(x);
    assert x[[0, 0] := [I, I, I]].Keys == BitFlipKeys;
  }

  lemma XRowWrites(t: Table)
    ensures Written(t, [ZZI, ZIZ], Row(X, 3)) == t[[1, 1] := [X, I, I]][[1, 0] := [I, X, I]][[0, 1] := [I, I, X]]
  {
    BitFlipSyndromes(X);
    Written3(t, [ZZI, ZIZ], Row(X, 3));
    assert Single(3, 0, X) == [X, I, I] && Single(3, 1, X) == [I, X, I] && Single(3, 2, X) == [I, I, X];
  }

  lemma IRowWrites(t: Table)
    ensures Written(t, [ZZI, ZIZ], Row(I, 3)) == t[[0, 0] := [I, I, I]]
  {
    TrivialSyndromes(I);
    Written3(t, [ZZI, ZIZ], Row(I, 3));
    assert Single(3, 0, I) == [I, I, I] && Single(3, 1, I) == [I, I, I] && Single(3, 2, I) == [I, I, I];
  }

  /** The table is written row by row, in the order Y, Z, X, I. */
  lemma ErrorLookupByRows(group: seq<PString>)
    requires group != []
    ensures var n := |group[0]|;
            ErrorLookup(group) ==
              Written(Written(Written(Written(map[], group, Row(Y, n)), group, Row(Z, n)), group, Row(X, n)), group, Row(I, n))
  {
    var n := |group[0]|;
    var o3 := ErrorOrder[..3];
    assert o3 == [Y, Z, X] && o3[..2] == [Y, Z] && o3[..2][..1] == [Y] && o3[..2][..1][..0] == [];
    assert Rows(o3[..2][..1], n) == Row(Y, n);
    assert Rows(o3[..2], n) == Row(Y, n) + Row(Z, n);
    assert Rows(o3, n) == Row(Y, n) + Row(Z, n) + Row(X, n);
    assert Rows(ErrorOrder, n) == Row(Y, n) + Row(Z, n) + Row(X, n) + Row(I, n);
    WrittenAppend(map[], group, Row(Y, n), Row(Z, n));
    WrittenAppend(map[], group, Row(Y, n) + Row(Z, n), Row(X, n));
    WrittenAppend(map[], group, Row(Y, n) + Row(Z, n) + Row(X, n), Row(I, n));
  }

  // ---------------------------------------------------------------------
  // The context

  class Context {
    /** The number of physical qubits: three per logical qubit. */
    const qubitCount: nat
    var blocks: map<nat, seq<nat>>
    var nextMeasurement: nat
    var stabilizers: seq<PString>

    ghost predicate Valid()
      reads this
    {
      NoDuplicates(stabilizers) &&
      (forall j :: 0 <= j < |stabilizers| ==> |stabilizers[j]| == qubitCount) &&
      (forall b :: b in blocks ==> |blocks[b]| == 3 && InRange(blocks[b], qubitCount) && NoDuplicates(blocks[b]))
    }

    /** Logical qubit `i` owns physical qubits `3i, 3i+1, 3i+2`; the
        measurement counter starts after the circuit's own registers. */
    constructor (logicalCount: nat, registerCount: nat)
      ensures Valid()
      ensures qubitCount == 3 * logicalCount && nextMeasurement == registerCount && stabilizers == []
      ensures forall i :: i in blocks ==> i < logicalCount
      ensures forall i :: 0 <= i < logicalCount ==> i in blocks && blocks[i] == [3 * i, 3 * i + 1, 3 * i + 2]
    {
      qubitCount := 3 * logicalCount;
      blocks := map i: nat | i < logicalCount :: [3 * i, 3 * i + 1, 3 * i + 2];
      nextMeasurement := registerCount;
      stabilizers := [];
    }

    /** `add_stabilizer`. */
    method AddStabilizer(stabilizer: PString, qubits: seq<nat>)
      requires Valid() && InRange(qubits, qubitCount)
      modifies this
      ensures Valid()
      ensures stabilizers == SetAdd(old(stabilizers), Expand(qubitCount, stabilizer, qubits))
      ensures nextMeasurement == old(nextMeasurement) && blocks == old(blocks)
    {
      var full := new Pauli[qubitCount](_ => I);
      var m := Min(|stabilizer|, |qubits|);
      assert full[..] == IdentityString(qubitCount);
      WriteAll(full, qubits[..m], stabilizer[..m]);
      var s := full[..];
      if s !in stabilizers {
        forall a, b | 0 <= a < b < |stabilizers + [s]|
          ensures (stabilizers + [s])[a] != (stabilizers + [s])[b]
        {
          if b == |stabilizers| {
            assert (stabilizers + [s])[a] == stabilizers[a];
          }
        }
        stabilizers := stabilizers + [s];
      }
    }

    /** `remove_stabilizer`: `false` for the `KeyError` of a generator that
        is not tracked. */
    method RemoveStabilizer(stabilizer: PString, qubits: seq<nat>) returns (ok: bool)
      requires Valid() && InRange(qubits, qubitCount)
      modifies this
      ensures Valid()
      ensures ok <==> Expand(qubitCount, stabilizer, qubits) in old(stabilizers)
      ensures stabilizers == SetRemove(old(stabilizers), Expand(qubitCount, stabilizer, qubits))
      ensures nextMeasurement == old(nextMeasurement) && blocks == old(blocks)
    {
      var full := new Pauli[qubitCount](_ => I);
      var m := Min(|stabilizer|, |qubits|);
      assert full[..] == IdentityString(qubitCount);
      WriteAll(full, qubits[..m], stabilizer[..m]);
      var s := full[..];
      ok := s in stabilizers;
      SetRemoveNoDuplicates(stabilizers, s);
      stabilizers := SetRemove(stabilizers, s);
      assert forall j :: 0 <= j < |stabilizers| ==> stabilizers[j] in old(stabilizers);
    }

    /** `blocks[b] = qubits`. */
    method SetBlock(b: nat, qubits: seq<nat>)
      requires Valid() && |qubits| == 3 && InRange(qubits, qubitCount) && NoDuplicates(qubits)
      modifies this
      ensures Valid() && blocks == old(blocks)[b := qubits]
      ensures stabilizers == old(stabilizers) && nextMeasurement == old(nextMeasurement)
    {
      blocks := blocks[b := qubits];
    }

    /** Takes `count` consecutive registers. */
    method TakeRegisters(count: nat) returns (first: nat)
      modifies this
      ensures first == old(nextMeasurement) && nextMeasurement == old(nextMeasurement) + count
      ensures stabilizers == old(stabilizers) && blocks == old(blocks)
    {
      first := nextMeasurement;
      nextMeasurement := nextMeasurement + count;
    }
  }

  /** `find_stabilizer_group`. */
  method FindStabilizerGroup(qubits: seq<nat>, stabilizers: seq<PString>) returns (group: seq<PString>)
    requires Covers(stabilizers, qubits)
    ensures group == Group(stabilizers, qubits)
  {
    group := [];
    var j := 0;
    while j < |stabilizers|
      invariant 0 <= j <= |stabilizers|
      invariant group == Group(stabilizers[..j], qubits)
    {
      assert stabilizers[..j + 1][..j] == stabilizers[..j];
      var st := Gather(stabilizers[j], qubits);
      if exists k :: 0 <= k < |st| && st[k] != I {
        if st !in group {
          group := group + [st];
        }
      }
      j := j + 1;
    }
    assert stabilizers[..j] == stabilizers;
  }

  // ---------------------------------------------------------------------
  // gadget_with_error_correction

  /** The gadget `gadget_with_error_correction` returns over the tracker
      `stabs`, its registers starting at `first`. */
  function WithLookup(name: string, instructions: seq<Element>, qubits: seq<nat>, first: nat, stabs: seq<PString>): Gadget
    requires Covers(stabs, qubits)
  {
    var group := Group(stabs, qubits);
    Gadget(name, instructions + Extraction(first, group, qubits),
           Some(Lookup(qubits, Range(first, |group|), group, ErrorLookup(group))))
  }

  method GadgetWithErrorCorrection(name: string, instructions: seq<Element>, qubits: seq<nat>, ctx: Context)
    returns (g: Gadget)
    requires ctx.Valid() && InRange(qubits, ctx.qubitCount)
    modifies ctx
    ensures ctx.Valid() && Covers(ctx.stabilizers, qubits)
    ensures ctx.stabilizers == old(ctx.stabilizers) && ctx.blocks == old(ctx.blocks)
    ensures ctx.nextMeasurement == old(ctx.nextMeasurement) + |Group(ctx.stabilizers, qubits)|
    ensures g == WithLookup(name, instructions, qubits, old(ctx.nextMeasurement), ctx.stabilizers)
  {
    assert Covers(ctx.stabilizers, qubits);
    var group := FindStabilizerGroup(qubits, ctx.stabilizers);
    var first := ctx.nextMeasurement;
    var registers := Range(first, |group|);
    var circuit := instructions;
    var k := 0;
    while k < |group|
      invariant 0 <= k <= |group|
      invariant circuit == instructions + Extraction(first, group[..k], qubits)
    {
      assert group[..k + 1][..k] == group[..k];
      circuit := circuit + [Tick, Instruction(MppName, Some([RegisterId(registers[k])] + QubitTargets(qubits)), group[k])];
      k := k + 1;
    }
    assert group[..k] == group;
    var table := BuildErrorLookup(group);
    var _ := ctx.TakeRegisters(|registers|);
    g := Gadget(name, circuit, Some(Lookup(qubits, registers, group, table)));
  }

  // ---------------------------------------------------------------------
  // The gadgets

  /** `prepare_zero`: tracks ZZI and ZIZ on the block, resets its qubits,
      then extracts the syndrome. */
  method PrepareZero(inst: Element, ctx: Context) returns (r: Result<Gadget>)
    requires ctx.Valid()
    modifies ctx
    ensures ctx.Valid() && ctx.blocks == old(ctx.blocks)
    ensures r.Ok? <==> LookupBlock(old(ctx.blocks), TargetAt(inst, 0)).Some?
    ensures r.Err? ==> ctx.stabilizers == old(ctx.stabilizers) && ctx.nextMeasurement == old(ctx.nextMeasurement)
    ensures r.Ok? ==>
              var qubits := LookupBlock(old(ctx.blocks), TargetAt(inst, 0)).value;
              ctx.stabilizers == SetAdd(SetAdd(old(ctx.stabilizers), Expand(ctx.qubitCount, ZZI, qubits)),
                                        Expand(ctx.qubitCount, ZIZ, qubits)) &&
              Covers(ctx.stabilizers, qubits) &&
              r.value == WithLookup(PrepareZeroName, PerQubit(PrepareZeroName, qubits), qubits,
                                    old(ctx.nextMeasurement), ctx.stabilizers)
  {
    var block := LookupBlock(ctx.blocks, TargetAt(inst, 0));
    if block.None? {
      return Err("KeyError: no block for the target");
    }
    var qubits := block.value;
    ctx.AddStabilizer(ZZI, qubits);
    ctx.AddStabilizer(ZIZ, qubits);
    var g := GadgetWithErrorCorrection(PrepareZeroName, PerQubit(PrepareZeroName, qubits), qubits, ctx);
    r := Ok(g);
  }

  /** `x`: XXX on the block, then syndrome extraction. */
  method ApplyX(inst: Element, ctx: Context) returns (r: Result<Gadget>)
    requires ctx.Valid()
    modifies ctx
    ensures ctx.Valid() && ctx.blocks == old(ctx.blocks) && ctx.stabilizers == old(ctx.stabilizers)
    ensures r.Ok? <==> LookupBlock(old(ctx.blocks), TargetAt(inst, 0)).Some?
    ensures r.Err? ==> ctx.nextMeasurement == old(ctx.nextMeasurement)
    ensures r.Ok? ==>
              var qubits := LookupBlock(old(ctx.blocks), TargetAt(inst, 0)).value;
              Covers(ctx.stabilizers, qubits) &&
              r.value == WithLookup(XName, [Op(PauliName, qubits, LogicalX)], qubits, old(ctx.nextMeasurement), ctx.stabilizers)
  {
    var block := LookupBlock(ctx.blocks, TargetAt(inst, 0));
    if block.None? {
      return Err("KeyError: no block for the target");
    }
    var qubits := block.value;
    var g := GadgetWithErrorCorrection(XName, [Op(PauliName, qubits, LogicalX)], qubits, ctx);
    r := Ok(g);
  }

  /** A generator's image under the `h` gadget's conjugation: H on the
      first qubit, then CX(0,1) and CX(0,2). */
  function HImage(g: PString): PString
    requires |g| == 3
  {
    CxAt(CxAt(HAt(g, 0), 0, 1), 0, 2)
  }

  function HImages(group: seq<PString>): (r: seq<PString>)
    requires AllLength(group, 3)
    ensures |r| == |group| && forall k :: 0 <= k < |group| ==> r[k] == HImage(group[k])
  {
    seq(|group|, k requires 0 <= k < |group| => HImage(group[k]))
  }

  /** The `h` update on a freshly prepared block: the gates H(0), CX(0,1),
      CX(0,2) turn the generators ZZI and ZIZ into YYX and YXY. */
  lemma HImagesOfGenerators()
    ensures HImages([ZZI, ZIZ]) == [[Y, Y, X], [Y, X, Y]]
  {
    assert HAt(ZZI, 0) == [X, Z, I] && CxAt([X, Z, I], 0, 1) == [Y, Y, I] && CxAt([Y, Y, I], 0, 2) == [Y, Y, X];
    assert HAt(ZIZ, 0) == [X, I, Z] && CxAt([X, I, Z], 0, 1) == [X, X, Z] && CxAt([X, X, Z], 0, 2) == [Y, X, Y];
  }

  function HTracked(stabs: seq<PString>, n: nat, qubits: seq<nat>): Option<seq<PString>>
    requires InRange(qubits, n) && Covers(stabs, qubits) && |qubits| == 3
  {
    GroupLength(stabs, qubits);
    Retracked(stabs, n, qubits, Group(stabs, qubits), HImages(Group(stabs, qubits)))
  }

  /** The remove/conjugate/add loop of `h` and `cx` over `group`, with the
      images the gate gives. */
  method Retrack(ctx: Context, qubits: seq<nat>, group: seq<PString>, images: seq<PString>) returns (ok: bool)
    requires ctx.Valid() && InRange(qubits, ctx.qubitCount) && |images| == |group|
    modifies ctx
    ensures ctx.Valid() && ctx.blocks == old(ctx.blocks) && ctx.nextMeasurement == old(ctx.nextMeasurement)
    ensures ok <==> Retracked(old(ctx.stabilizers), ctx.qubitCount, qubits, group, images).Some?
    ensures ok ==> ctx.stabilizers == Retracked(old(ctx.stabilizers), ctx.qubitCount, qubits, group, images).value
  {
    var k := 0;
    while k < |group|
      invariant 0 <= k <= |group|
      invariant ctx.Valid() && ctx.blocks == old(ctx.blocks) && ctx.nextMeasurement == old(ctx.nextMeasurement)
      invariant Retracked(old(ctx.stabilizers), ctx.qubitCount, qubits, group[..k], images[..k]) == Some(ctx.stabilizers)
    {
      RetrackedSnoc(old(ctx.stabilizers), ctx.qubitCount, qubits, group, images, k);
      ok := ctx.RemoveStabilizer(group[k], qubits);
      if !ok {
        RetrackedFailureStays(old(ctx.stabilizers), ctx.qubitCount, qubits, group, images, k + 1);
        return;
      }
      ctx.AddStabilizer(images[k], qubits);
      k := k + 1;
    }
    assert group[..k] == group && images[..k] == images;
    ok := true;
  }

  /** The tracker update of `h` and the reversal of the block. */
  method TrackH(ctx: Context, id: nat, qubits: seq<nat>) returns (ok: bool)
    requires ctx.Valid() && |qubits| == 3 && InRange(qubits, ctx.qubitCount) && NoDuplicates(qubits)
    modifies ctx
    ensures ctx.Valid() && Covers(old(ctx.stabilizers), qubits)
    ensures ctx.nextMeasurement == old(ctx.nextMeasurement)
    ensures ok <==> HTracked(old(ctx.stabilizers), ctx.qubitCount, qubits).Some?
    ensures !ok ==> ctx.blocks == old(ctx.blocks)
    ensures ok ==> ctx.stabilizers == HTracked(old(ctx.stabilizers), ctx.qubitCount, qubits).value &&
                   ctx.blocks == old(ctx.blocks)[id := Rep3Phase.Reverse3(qubits)]
  {
    assert Covers(ctx.stabilizers, qubits);
    var group := FindStabilizerGroup(qubits, ctx.stabilizers);
    GroupLength(ctx.stabilizers, qubits);
    ok := Retrack(ctx, qubits, group, HImages(group));
    if ok {
      Rep3Phase.Reverse3Block(qubits, ctx.qubitCount);
      ctx.SetBlock(id, Rep3Phase.Reverse3(qubits));
    }
  }

  /** `h`: H, Z, CX(0,1), CX(0,2) on the block; each generator of the
      block's group is replaced by its image, the block's qubit list is
      reversed, and the syndrome is extracted over the qubits in their
      former order. The gadget is named "x", as the library names it. */
  method ApplyH(inst: Element, ctx: Context) returns (r: Result<Gadget>)
    requires ctx.Valid()
    modifies ctx
    ensures ctx.Valid()
    ensures LookupBlock(old(ctx.blocks), TargetAt(inst, 0)).None? ==>
              r.Err? && ctx.stabilizers == old(ctx.stabilizers) && ctx.blocks == old(ctx.blocks)
    ensures LookupBlock(old(ctx.blocks), TargetAt(inst, 0)).Some? ==>
              var qubits := LookupBlock(old(ctx.blocks), TargetAt(inst, 0)).value;
              Covers(old(ctx.stabilizers), qubits) &&
              (r.Ok? <==> HTracked(old(ctx.stabilizers), ctx.qubitCount, qubits).Some?) &&
              (r.Ok? ==>
                 ctx.stabilizers == HTracked(old(ctx.stabilizers), ctx.qubitCount, qubits).value &&
                 ctx.blocks == old(ctx.blocks)[TargetAt(inst, 0).value.value as nat := Rep3Phase.Reverse3(qubits)] &&
                 Covers(ctx.stabilizers, qubits) &&
                 r.value == WithLookup(XName, [Op(HName, [qubits[0]], []), Op(ZName, [qubits[0]], []),
                                               Op(CxName, [qubits[0], qubits[1]], []), Op(CxName, [qubits[0], qubits[2]], [])],
                                       qubits, old(ctx.nextMeasurement), ctx.stabilizers))
  {
    var block := LookupBlock(ctx.blocks, TargetAt(inst, 0));
    if block.None? {
      return Err("KeyError: no block for the target");
    }
    var qubits := block.value;
    var id := TargetAt(inst, 0).value.value as nat;
    var instructions := [Op(HName, [qubits[0]], []), Op(ZName, [qubits[0]], []),
                         Op(CxName, [qubits[0], qubits[1]], []), Op(CxName, [qubits[0], qubits[2]], [])];
    var ok := TrackH(ctx, id, qubits);
    if !ok {
      return Err("KeyError: a generator reaches outside the block");
    }
    var g := GadgetWithErrorCorrection(XName, instructions, qubits, ctx);
    r := Ok(g);
  }

  /** `cx`: transversal CX from the control block to the target block;
      each generator of the six-qubit group is replaced by its image under
      CX(0,3), CX(1,4), CX(2,5), then the syndrome is extracted over both
      blocks. The gadget is named "x", as the library names it. */
  method ApplyCx(inst: Element, ctx: Context) returns (r: Result<Gadget>)
    requires ctx.Valid()
    modifies ctx
    ensures ctx.Valid() && ctx.blocks == old(ctx.blocks)
    ensures LookupBlock(old(ctx.blocks), TargetAt(inst, 0)).None? || LookupBlock(old(ctx.blocks), TargetAt(inst, 1)).None? ==>
              r.Err? && ctx.stabilizers == old(ctx.stabilizers)
    ensures LookupBlock(old(ctx.blocks), TargetAt(inst, 0)).Some? && LookupBlock(old(ctx.blocks), TargetAt(inst, 1)).Some? ==>
              var ctl := LookupBlock(old(ctx.blocks), TargetAt(inst, 0)).value;
              var tgt := LookupBlock(old(ctx.blocks), TargetAt(inst, 1)).value;
              Covers(old(ctx.stabilizers), ctl + tgt) &&
              (r.Ok? <==> Rep3Phase.CxTracked(old(ctx.stabilizers), ctx.qubitCount, ctl + tgt).Some?) &&
              (r.Ok? ==>
                 ctx.stabilizers == Rep3Phase.CxTracked(old(ctx.stabilizers), ctx.qubitCount, ctl + tgt).value &&
                 Covers(ctx.stabilizers, ctl + tgt) &&
                 r.value == WithLookup(XName, Pairwise(CxName, ctl, tgt), ctl + tgt, old(ctx.nextMeasurement), ctx.stabilizers))
  {
    var ctlBlock := LookupBlock(ctx.blocks, TargetAt(inst, 0));
    var tgtBlock := LookupBlock(ctx.blocks, TargetAt(inst, 1));
    if ctlBlock.None? || tgtBlock.None? {
      return Err("KeyError: no block for a target");
    }
    var ctl, tgt := ctlBlock.value, tgtBlock.value;
    var qubits := ctl + tgt;
    assert Covers(ctx.stabilizers, qubits);
    var group := FindStabilizerGroup(qubits, ctx.stabilizers);
    GroupLength(ctx.stabilizers, qubits);
    var ok := Retrack(ctx, qubits, group, Rep3Phase.CxImages(group));
    if !ok {
      return Err("KeyError: a generator reaches outside the blocks");
    }
    var g := GadgetWithErrorCorrection(XName, Pairwise(CxName, ctl, tgt), qubits, ctx);
    r := Ok(g);
  }

  /** `measure_z`: measures ZII over the block into a fresh register; the
      decoder writes the corrected bit into the encoded register. */
  method MeasureZ(inst: Element, ctx: Context) returns (r: Result<Gadget>)
    requires ctx.Valid()
    modifies ctx
    ensures ctx.Valid() && ctx.blocks == old(ctx.blocks) && ctx.stabilizers == old(ctx.stabilizers)
    ensures r.Ok? <==> LookupBlock(old(ctx.blocks), TargetAt(inst, 1)).Some? && RegisterOf(TargetAt(inst, 0)).Some?
    ensures r.Err? ==> ctx.nextMeasurement == old(ctx.nextMeasurement)
    ensures r.Ok? ==>
              var qubits := LookupBlock(old(ctx.blocks), TargetAt(inst, 1)).value;
              var raw := old(ctx.nextMeasurement);
              ctx.nextMeasurement == raw + 1 &&
              r.value == Gadget(ReadoutName, [Instruction(MppName, Some([RegisterId(raw)] + QubitTargets(qubits)), ReadoutOp)],
                                Some(Readout(raw, RegisterOf(TargetAt(inst, 0)).value, qubits, ReadoutOp, false)))
  {
    var block := LookupBlock(ctx.blocks, TargetAt(inst, 1));
    var encoded := RegisterOf(TargetAt(inst, 0));
    if block.None? || encoded.None? {
      return Err("no block for the target, or no register to write");
    }
    var qubits := block.value;
    var raw := ctx.TakeRegisters(1);
    var circuit := [Instruction(MppName, Some([RegisterId(raw)] + QubitTargets(qubits)), ReadoutOp)];
    r := Ok(Gadget(ReadoutName, circuit, Some(Readout(raw, encoded.value, qubits, ReadoutOp, false))));
  }

  /** After a bit flip on position `k` of a fresh block, the decoder of
      the ZZI/ZIZ group finds the flip: the corrected syndrome of the
      measured outcomes is the flip's syndrome, whose entry is the flip. */
  lemma SingleFlipCorrected(k: nat)
    requires k < 3
    ensures var e := Single(3, k, X);
            SyndromeOf([ZZI, ZIZ], e) in ErrorLookup([ZZI, ZIZ]) &&
            ErrorLookup([ZZI, ZIZ])[SyndromeOf([ZZI, ZIZ], e)] == e
  {
    BitFlipTable();
    BitFlipSyndromes(X);
    if k == 0 {
      assert Single(3, k, X) == [X, I, I];
    } else if k == 1 {
      assert Single(3, k, X) == [I, X, I];
    } else {
      assert Single(3, k, X) == [I, I, X];
    }
  }
}
