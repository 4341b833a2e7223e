/** The kernel-level Steane compiler: every logical qubit becomes the seven
    physical qubits "t.0" .. "t.6" of the [[7,1,3]] code, each logical gate
    its transversal version, and syndrome extraction with a classical
    correction callback is placed around the gates. */
module SteaneKernel {
  import opened Wrappers
  import opened Ast
  import opened KernelGates
  import opened ClassicProcessing

  /** The three check rows of the code. */
  const CheckRows: seq<seq<int>> := [[1, 1, 0, 1, 1, 0, 0], [1, 0, 1, 1, 0, 1, 0], [0, 1, 1, 1, 0, 0, 1]]

  /** The positions where each check row is one, in increasing order. */
  const Supports: seq<seq<nat>> := [[0, 1, 3, 4], [0, 2, 3, 5], [1, 2, 3, 6]]

  lemma SupportsAreRows()
    ensures forall k, j :: 0 <= k < 3 && 0 <= j < 7 ==> (j in Supports[k] <==> CheckRows[k][j] == 1)
    ensures forall k, j :: 0 <= k < 3 && 0 <= j < 7 ==> CheckRows[k][j] == 0 || CheckRows[k][j] == 1
  {
  }

  // ---------------------------------------------------------------------
  // Transversal gates

  const AncillaInfix := ".z."
  const CorrectXName := "correct_x"
  const CorrectZName := "correct_z"
  const DecodeName := "decode"
  const QubitArgument := "qubit"
  const IndexError := "IndexError: tuple index out of range"
  const KeyError := "KeyError: "
  const NoTargetsError := "AttributeError: no targets"

  const HandlerNames := {XGate, ZGate, HGate, CxGate}

  /** `handle_x`, `handle_z`, `handle_h`: the gate on each of the seven
      physical qubits of the first target; with no target, an IndexError. */
  function HandleTransversal(gate: string, inst: QuantumInstruction): (r: Result<Kernel>)
    ensures r.Ok? <==> |inst.targets| >= 1
    ensures r.Ok? ==>
              r.value.target.None? && r.value.callback.None? && Flat(r.value.instructions) &&
              r.value.instructions == OnEach(gate, inst.targets[0], 7)
  {
    if |inst.targets| == 0 then Err(IndexError)
    else Ok(Kernel(None, OnEach(gate, inst.targets[0], 7), None))
  }

  /** `handle_cx`: a CX from physical qubit `i` of the control to physical
      qubit `i` of the target, for each `i`; with fewer than two targets, an
      IndexError. */
  function HandleCx(inst: QuantumInstruction): (r: Result<Kernel>)
    ensures r.Ok? <==> |inst.targets| >= 2
    ensures r.Ok? ==>
              r.value.target.None? && r.value.callback.None? && Flat(r.value.instructions) &&
              |r.value.instructions| == 7 &&
              forall i :: 0 <= i < 7 ==>
                r.value.instructions[i] == Gate(CxGate, [Physical(inst.targets[0], i), Physical(inst.targets[1], i)])
  {
    if |inst.targets| < 2 then Err(IndexError)
    else Ok(Kernel(None, seq(7, i requires 0 <= i < 7 => Gate(CxGate, [Physical(inst.targets[0], i), Physical(inst.targets[1], i)])), None))
  }

  /** The handler table: a name without a handler is a KeyError. */
  function Handle(inst: QuantumInstruction): (r: Result<Kernel>)
    ensures inst.name !in HandlerNames ==> r.Err?
    ensures inst.name in HandlerNames && r.Ok? ==> r.value.target.None? && r.value.callback.None? && Flat(r.value.instructions)
  {
    if inst.name == XGate then HandleTransversal(XGate, inst)
    else if inst.name == ZGate then HandleTransversal(ZGate, inst)
    else if inst.name == HGate then HandleTransversal(HGate, inst)
    else if inst.name == CxGate then HandleCx(inst)
    else Err(KeyError + inst.name)
  }

  /** The single-qubit transversal gates touch seven different qubits, and
      the transversal CX pairs qubit `i` of the control with qubit `i` of
      the target only. */
  lemma TransversalGatesAreDisjoint(inst: QuantumInstruction)
    ensures Handle(inst).Ok? && inst.name in {XGate, ZGate, HGate} ==>
              forall i, j :: 0 <= i < j < 7 ==>
                Handle(inst).value.instructions[i].q.targets != Handle(inst).value.instructions[j].q.targets
    ensures Handle(inst).Ok? && inst.name == CxGate ==>
              forall i, j :: 0 <= i < 7 && 0 <= j < 7 && i != j ==>
                Handle(inst).value.instructions[i].q.targets[0] != Handle(inst).value.instructions[j].q.targets[0] &&
                Handle(inst).value.instructions[i].q.targets[1] != Handle(inst).value.instructions[j].q.targets[1]
  {
    if Handle(inst).Ok? && inst.name in {XGate, ZGate, HGate} {
      OnEachDistinct(inst.name, inst.targets[0], 7);
    }
    if Handle(inst).Ok? && inst.name == CxGate {
      forall i, j | 0 <= i < 7 && 0 <= j < 7 && i != j
        ensures Handle(inst).value.instructions[i].q.targets[0] != Handle(inst).value.instructions[j].q.targets[0]
        ensures Handle(inst).value.instructions[i].q.targets[1] != Handle(inst).value.instructions[j].q.targets[1]
      {
        PhysicalDistinct(inst.targets[0], i, j);
        PhysicalDistinct(inst.targets[1], i, j);
      }
    }
  }

  // ---------------------------------------------------------------------
  // Preparation and syndrome extraction

  /** A CX from `control` to each listed physical qubit of `t`. */
  function FanOut(control: QubitId, t: QubitId, positions: seq<nat>): seq<Node>
    requires forall m :: 0 <= m < |positions| ==> positions[m] < 10
  {
    seq(|positions|, m requires 0 <= m < |positions| => Gate(CxGate, [control, Physical(t, positions[m])]))
  }

  /** A CX from each listed physical qubit of `t` to `target`. */
  function FanIn(t: QubitId, positions: seq<nat>, target: QubitId): seq<Node>
    requires forall m :: 0 <= m < |positions| ==> positions[m] < 10
  {
    seq(|positions|, m requires 0 <= m < |positions| => Gate(CxGate, [Physical(t, positions[m]), target]))
  }

  /** `handle_prepare_zero`: H on the last three physical qubits, then the
      CX network. */
  function PrepareZero(t: QubitId): (r: Kernel)
    ensures r.target.None? && r.callback.None? && |r.instructions| == 12
    ensures forall i :: 0 <= i < 12 ==>
              r.instructions[i].Quantum? && r.instructions[i].q.name == (if i < 3 then HGate else CxGate) &&
              forall q :: q in r.instructions[i].q.targets ==> exists j :: 0 <= j < 7 && q == Physical(t, j)
  {
    var h0, h1, h2 := Physical(t, 4), Physical(t, 5), Physical(t, 6);
    Kernel(None, [
      Gate(HGate, [h0]), Gate(HGate, [h1]), Gate(HGate, [h2]),
      Gate(CxGate, [h0, Physical(t, 0)]), Gate(CxGate, [h0, Physical(t, 1)]), Gate(CxGate, [h0, Physical(t, 3)]),
      Gate(CxGate, [h1, Physical(t, 0)]), Gate(CxGate, [h1, Physical(t, 2)]), Gate(CxGate, [h1, Physical(t, 3)]),
      Gate(CxGate, [h2, Physical(t, 1)]), Gate(CxGate, [h2, Physical(t, 2)]), Gate(CxGate, [h2, Physical(t, 3)])
    ], None)
  }

  /** The preparation puts qubit `4 + k` in superposition and fans it out to
      the rest of the support of check row `k`: each check row's support is
      entangled from the one qubit that only that row contains. */
  lemma PrepareZeroFollowsChecks(t: QubitId)
    ensures forall k :: 0 <= k < 3 ==> Supports[k][3] == 4 + k && CheckRows[k][4 + k] == 1
    ensures forall k, j :: 0 <= k < 3 && 4 <= j < 7 && j != 4 + k ==> CheckRows[k][j] == 0
    ensures PrepareZero(t).target.None? && PrepareZero(t).callback.None? && Flat(PrepareZero(t).instructions)
    ensures PrepareZero(t).instructions ==
              OnEach(HGate, t, 7)[4..] +
              FanOut(Physical(t, 4), t, Supports[0][..3]) +
              FanOut(Physical(t, 5), t, Supports[1][..3]) +
              FanOut(Physical(t, 6), t, Supports[2][..3])
  {
    assert OnEach(HGate, t, 7)[4..] == [Gate(HGate, [Physical(t, 4)]), Gate(HGate, [Physical(t, 5)]), Gate(HGate, [Physical(t, 6)])];
    assert Supports[0][..3] == [0, 1, 3];
    assert Supports[1][..3] == [0, 2, 3];
    assert Supports[2][..3] == [1, 2, 3];
  }

  /** The name "t.z.i" of ancilla `i` of `t`. */
  function AncillaName(t: QubitId, i: nat): string
    requires i < 10
  {
    t.value + AncillaInfix + Digit(i)
  }

  /** The ancilla "t.z.i". */
  function Ancilla(t: QubitId, i: nat): QubitId
    requires i < 10
  {
    QubitId(AncillaName(t, i))
  }

  function AncillaNames(t: QubitId): (r: seq<IdArg>)
    ensures |r| == 3 && forall i :: 0 <= i < 3 ==> Wrap(r[i]) == Ancilla(t, i)
  {
    [Name(AncillaName(t, 0)), Name(AncillaName(t, 1)), Name(AncillaName(t, 2))]
  }

  /** The classical instruction `Correct_X(qubit=t)`. */
  function CorrectXCall(t: QubitId): ClassicInstruction {
    ClassicInstruction(CorrectXName, map[QubitArgument := QubitValue(t)])
  }

  /** The classical instruction `Correct_Z(qubit=t)`. */
  function CorrectZCall(t: QubitId): ClassicInstruction {
    ClassicInstruction(CorrectZName, map[QubitArgument := QubitValue(t)])
  }

  /** The classical instruction `Decode()`. */
  const DecodeCall := ClassicInstruction(DecodeName, map[])

  /** The gates of `x_syndrome_extraction`. */
  function XExtractionGates(t: QubitId): seq<Node> {
    var a0, a1, a2 := Ancilla(t, 0), Ancilla(t, 1), Ancilla(t, 2);
    [Gate(HGate, [a0]), Gate(HGate, [a1]), Gate(HGate, [a2])] +
    [
      Gate(CxGate, [a0, Physical(t, 0)]), Gate(CxGate, [a0, Physical(t, 1)]), Gate(CxGate, [a0, Physical(t, 3)]), Gate(CxGate, [a0, Physical(t, 4)]),
      Gate(CxGate, [a1, Physical(t, 0)]), Gate(CxGate, [a1, Physical(t, 2)]), Gate(CxGate, [a1, Physical(t, 3)]), Gate(CxGate, [a1, Physical(t, 5)]),
      Gate(CxGate, [a2, Physical(t, 1)]), Gate(CxGate, [a2, Physical(t, 2)]), Gate(CxGate, [a2, Physical(t, 3)]), Gate(CxGate, [a2, Physical(t, 6)])
    ] +
    [Gate(HGate, [a0]), Gate(HGate, [a1]), Gate(HGate, [a2])]
  }

  /** The gates of `z_syndrome_extraction`. */
  function ZExtractionGates(t: QubitId): seq<Node> {
    var a0, a1, a2 := Ancilla(t, 0), Ancilla(t, 1), Ancilla(t, 2);
    [
      Gate(CxGate, [Physical(t, 0), a0]), Gate(CxGate, [Physical(t, 1), a0]), Gate(CxGate, [Physical(t, 3), a0]), Gate(CxGate, [Physical(t, 4), a0]),
      Gate(CxGate, [Physical(t, 0), a1]), Gate(CxGate, [Physical(t, 2), a1]), Gate(CxGate, [Physical(t, 3), a1]), Gate(CxGate, [Physical(t, 5), a1]),
      Gate(CxGate, [Physical(t, 1), a2]), Gate(CxGate, [Physical(t, 2), a2]), Gate(CxGate, [Physical(t, 3), a2]), Gate(CxGate, [Physical(t, 6), a2])
    ]
  }

  /** Each ancilla `k` is coupled to exactly the support of check row `k`:
      as control between two Hadamard layers for the X syndrome, as target
      for the Z syndrome. */
  lemma ExtractionFollowsChecks(t: QubitId)
    ensures XExtractionGates(t) ==
              [Gate(HGate, [Ancilla(t, 0)]), Gate(HGate, [Ancilla(t, 1)]), Gate(HGate, [Ancilla(t, 2)])] +
              FanOut(Ancilla(t, 0), t, Supports[0]) + FanOut(Ancilla(t, 1), t, Supports[1]) + FanOut(Ancilla(t, 2), t, Supports[2]) +
              [Gate(HGate, [Ancilla(t, 0)]), Gate(HGate, [Ancilla(t, 1)]), Gate(HGate, [Ancilla(t, 2)])]
    ensures ZExtractionGates(t) ==
              FanIn(t, Supports[0], Ancilla(t, 0)) + FanIn(t, Supports[1], Ancilla(t, 1)) + FanIn(t, Supports[2], Ancilla(t, 2))
  {
  }

  /** What `x_syndrome_extraction(t)` returns. */
  function XExtraction(t: QubitId): Kernel {
    Allocated(AncillaNames(t), XExtractionGates(t), Some(CorrectXCall(t)))
  }

  /** What `z_syndrome_extraction(t)` returns. */
  function ZExtraction(t: QubitId): Kernel {
    Allocated(AncillaNames(t), ZExtractionGates(t), Some(CorrectZCall(t)))
  }

  /** Each extraction allocates the three ancillas "t.z.0" .. "t.z.2" as a
      chain three kernels deep, with its correction for `t` as the callback
      of the outermost kernel only. */
  lemma ExtractionShape(t: QubitId)
    ensures XExtraction(t).target == Some(Ancilla(t, 0)) && ZExtraction(t).target == Some(Ancilla(t, 0))
    ensures Depth(XExtraction(t)) == 3 && Depth(ZExtraction(t)) == 3
    ensures XExtraction(t).callback == Some(CorrectXCall(t)) && ZExtraction(t).callback == Some(CorrectZCall(t))
    ensures forall k :: 1 <= k < 3 ==> Level(XExtraction(t), k).callback.None? && Level(ZExtraction(t), k).callback.None?
  {
    assert Flat(XExtractionGates(t));
    assert Flat(ZExtractionGates(t));
    AllocatedShape(AncillaNames(t), XExtractionGates(t), Some(CorrectXCall(t)));
    AllocatedShape(AncillaNames(t), ZExtractionGates(t), Some(CorrectZCall(t)));
  }

  /** `x_syndrome_extraction`. */
  method XSyndromeExtraction(t: QubitId) returns (k: Kernel)
    ensures k == XExtraction(t)
  {
    k := Allocate(AncillaNames(t), XExtractionGates(t), Some(CorrectXCall(t)));
  }

  /** `z_syndrome_extraction`. */
  method ZSyndromeExtraction(t: QubitId) returns (k: Kernel)
    ensures k == ZExtraction(t)
  {
    k := Allocate(AncillaNames(t), ZExtractionGates(t), Some(CorrectZCall(t)));
  }

  // ---------------------------------------------------------------------
  // Classical callbacks

  /** `syndrome_table`: the position of the flip each syndrome points to. */
  const SyndromeTable: map<(int, int, int), Option<nat>> := map[
    (0, 0, 0) := None, (0, 0, 1) := Some(6), (0, 1, 0) := Some(5), (0, 1, 1) := Some(3),
    (1, 0, 0) := Some(4), (1, 0, 1) := Some(2), (1, 1, 0) := Some(1), (1, 1, 1) := Some(0)]

  /** `syndrome_table.get(s)`: no position for a missing key. */
  function Fault(s: (int, int, int)): (r: Option<nat>)
    ensures r.Some? ==> r.value < 7
  {
    if s in SyndromeTable then SyndromeTable[s] else None
  }

  predicate IsBit(x: int) {
    x == 0 || x == 1
  }

  predicate IsBits(s: seq<int>) {
    forall i :: 0 <= i < |s| ==> IsBit(s[i])
  }

  /** The table names a position exactly for the nonzero three-bit
      syndromes, and different syndromes name different positions. */
  lemma FaultTable(s: (int, int, int), s': (int, int, int))
    ensures Fault(s).Some? <==> IsBit(s.0) && IsBit(s.1) && IsBit(s.2) && s != (0, 0, 0)
    ensures Fault(s).Some? && Fault(s) == Fault(s') ==> s == s'
  {
  }

  /** The syndrome a flip at `j` produces: column `j` of the check rows. */
  function Column(j: nat): (int, int, int)
    requires j < 7
  {
    (CheckRows[0][j], CheckRows[1][j], CheckRows[2][j])
  }

  /** Every column is named in the table; the named position is `j` itself
      exactly for `j` in 4, 5, 6. */
  lemma FaultOfColumns()
    ensures forall j :: 0 <= j < 7 ==> Fault(Column(j)).Some?
    ensures forall j :: 0 <= j < 7 ==> (Fault(Column(j)) == Some(j) <==> 4 <= j)
  {
    forall j | 0 <= j < 7
      ensures Fault(Column(j)).Some? && (Fault(Column(j)) == Some(j) <==> 4 <= j)
    {
      if j == 0 { assert Column(j) == (1, 1, 0); }
      else if j == 1 { assert Column(j) == (1, 0, 1); }
      else if j == 2 { assert Column(j) == (0, 1, 1); }
      else if j == 3 { assert Column(j) == (1, 1, 1); }
      else if j == 4 { assert Column(j) == (1, 0, 0); }
      else if j == 5 { assert Column(j) == (0, 1, 0); }
      else { assert Column(j) == (0, 0, 1); }
    }
  }

  /** The position `correct_x` and `correct_z` correct after popping `p`:
      a tuple holding `None` is never a key. */
  function SyndromeFault(p: seq<Option<Outcome>>): Option<nat>
    requires |p| == 3
  {
    if p[0].Some? && p[1].Some? && p[2].Some? then Fault((p[0].value, p[1].value, p[2].value)) else None
  }

  /** The kernel a correction returns: the gate on the named physical
      qubit, or nothing. */
  function Correction(gate: string, qubit: QubitId, fault: Option<nat>): Option<Kernel>
    requires fault.Some? ==> fault.value < 7
  {
    if fault.Some? then Some(Kernel(None, [Gate(gate, [Physical(qubit, fault.value)])], None)) else None
  }

  /** A correction is one gate on one physical qubit of `qubit`, and there
      is one exactly when the three latest outcomes are bits, not all zero. */
  lemma CorrectionShape(gate: string, qubit: QubitId, m: seq<Outcome>)
    ensures var k := Correction(gate, qubit, SyndromeFault(Popped(m, 3)));
            (k.Some? <==> |m| >= 3 && IsBits(m[|m| - 3..]) && m[|m| - 3..] != [0, 0, 0]) &&
            (k.Some? ==> k.value.target.None? && k.value.callback.None? && |k.value.instructions| == 1 &&
                         exists f :: 0 <= f < 7 && k.value.instructions[0] == Gate(gate, [Physical(qubit, f)]))
  {
    var p := Popped(m, 3);
    if |m| >= 3 {
      var s := (p[0].value, p[1].value, p[2].value);
      var last := m[|m| - 3..];
      FaultTable(s, s);
      assert last == [s.2, s.1, s.0];
    }
  }

  /** `correct_x`: pop three outcomes and apply X to the physical qubit the
      syndrome names, if any. */
  method CorrectX(cpu: ClassicProcessor, qubit: QubitId) returns (k: Option<Kernel>)
    requires cpu.restarted
    modifies cpu
    ensures cpu.restarted && cpu.measurements == Remaining(old(cpu.measurements), 3)
    ensures k == Correction(XGate, qubit, SyndromeFault(Popped(old(cpu.measurements), 3)))
  {
    var syndrome := ConsumeMany(cpu, 3);
    var fault := SyndromeFault(syndrome);
    k := if fault.Some? then Some(Kernel(None, [Gate(XGate, [Physical(qubit, fault.value)])], None)) else None;
  }

  /** `correct_z`: as `correct_x`, applying Z. */
  method CorrectZ(cpu: ClassicProcessor, qubit: QubitId) returns (k: Option<Kernel>)
    requires cpu.restarted
    modifies cpu
    ensures cpu.restarted && cpu.measurements == Remaining(old(cpu.measurements), 3)
    ensures k == Correction(ZGate, qubit, SyndromeFault(Popped(old(cpu.measurements), 3)))
  {
    var syndrome := ConsumeMany(cpu, 3);
    var fault := SyndromeFault(syndrome);
    k := if fault.Some? then Some(Kernel(None, [Gate(ZGate, [Physical(qubit, fault.value)])], None)) else None;
  }

  /** `np.dot` of two vectors of the same length. */
  function Dot(o: seq<int>, row: seq<int>): int
    requires |o| == |row|
    decreases |o|
  {
    if |o| == 0 then 0 else Dot(o[..|o| - 1], row[..|row| - 1]) + o[|o| - 1] * row[|row| - 1]
  }

  /** `np.sum`. */
  function Sum(o: seq<int>): int
    decreases |o|
  {
    if |o| == 0 then 0 else Sum(o[..|o| - 1]) + o[|o| - 1]
  }

  /** The three checks `decode` computes (Python's `%` by a positive
      modulus agrees with Dafny's). */
  function Syndrome(o: seq<int>): (int, int, int)
    requires |o| == 7
  {
    (Dot(o, CheckRows[0]) % 2, Dot(o, CheckRows[1]) % 2, Dot(o, CheckRows[2]) % 2)
  }

  /** The outcomes after `decode` flips the position the syndrome names. */
  function Corrected(o: seq<int>): seq<int>
    requires |o| == 7
  {
    var f := Fault(Syndrome(o));
    if f.Some? then o[f.value := (o[f.value] + 1) % 2] else o
  }

  /** The bit `decode` collects for the outcomes `o`. */
  function DecodedBit(o: seq<int>): (r: int)
    requires |o| == 7
    ensures r == 0 || r == 1
  {
    Sum(Corrected(o)) % 2
  }

  /** `decode`: pop seven outcomes, flip the one the syndrome names and
      collect the parity; with fewer than seven outcomes, `np.dot` meets a
      `None` and raises a TypeError after the stack has been emptied. */
  method Decode(cpu: ClassicProcessor) returns (ok: bool)
    requires cpu.restarted
    modifies cpu
    ensures cpu.restarted
    ensures ok <==> |old(cpu.measurements)| >= 7
    ensures ok ==> cpu.measurements == Remaining(old(cpu.measurements), 7) + [DecodedBit(Latest(old(cpu.measurements), 7))]
    ensures !ok ==> cpu.measurements == []
  {
    ghost var m := cpu.measurements;
    var popped := ConsumeMany(cpu, 7);
    if exists i :: 0 <= i < 7 && popped[i].None? {
      return false;
    }
    assert popped[6].Some?;
    var outcome := seq(7, i requires 0 <= i < 7 => popped[i].value);
    assert outcome == Latest(m, 7);
    var syndrome := (Dot(outcome, CheckRows[0]) % 2, Dot(outcome, CheckRows[1]) % 2, Dot(outcome, CheckRows[2]) % 2);
    var fault := Fault(syndrome);
    if fault.Some? {
      outcome := outcome[fault.value := (outcome[fault.value] + 1) % 2];
    }
    cpu.Collect(Sum(outcome) % 2);
    ok := true;
  }

  lemma {:induction false} DotUpdate(o: seq<int>, row: seq<int>, j: nat, v: int)
    requires |o| == |row| && j < |o|
    ensures Dot(o[j := v], row) == Dot(o, row) + (v - o[j]) * row[j]
    decreases |o|
  {
    var n := |o|;
    if j < n - 1 {
      assert o[j := v][..n - 1] == o[..n - 1][j := v];
      DotUpdate(o[..n - 1], row[..n - 1], j, v);
    } else {
      assert o[j := v][..n - 1] == o[..n - 1];
    }
  }

  lemma {:induction false} SumUpdate(o: seq<int>, j: nat, v: int)
    requires j < |o|
    ensures Sum(o[j := v]) == Sum(o) + v - o[j]
    decreases |o|
  {
    var n := |o|;
    if j < n - 1 {
      assert o[j := v][..n - 1] == o[..n - 1][j := v];
      SumUpdate(o[..n - 1], j, v);
    } else {
      assert o[j := v][..n - 1] == o[..n - 1];
    }
  }

  /** Flipping bit `j` of a vector whose check is even makes the check
      the row's entry at `j`. */
  lemma CheckOfFlip(c: seq<int>, row: seq<int>, j: nat)
    requires |c| == |row| && j < |c| && IsBits(c) && IsBit(row[j]) && Dot(c, row) % 2 == 0
    ensures Dot(c[j := 1 - c[j]], row) % 2 == row[j]
  {
    DotUpdate(c, row, j, 1 - c[j]);
  }

  /** Flipping one bit of a bit vector changes its sum by one. */
  lemma SumOfFlip(c: seq<int>, j: nat)
    requires j < |c| && IsBits(c)
    ensures IsBits(c[j := 1 - c[j]])
    ensures Sum(c[j := 1 - c[j]]) == Sum(c) + 1 || Sum(c[j := 1 - c[j]]) == Sum(c) - 1
  {
    SumUpdate(c, j, 1 - c[j]);
  }

  /** A codeword: seven bits satisfying every check. */
  predicate Codeword(c: seq<int>) {
    |c| == 7 && IsBits(c) && Syndrome(c) == (0, 0, 0)
  }

  /** The syndrome of a codeword with bit `j` flipped is column `j`. */
  lemma SyndromeOfFlip(c: seq<int>, j: nat)
    requires Codeword(c) && j < 7
    ensures Syndrome(c[j := 1 - c[j]]) == Column(j)
  {
    SupportsAreRows();
    CheckOfFlip(c, CheckRows[0], j);
    CheckOfFlip(c, CheckRows[1], j);
    CheckOfFlip(c, CheckRows[2], j);
  }

  /** Two single flips keep the parity of a bit vector. */
  lemma TwoFlipsKeepParity(c: seq<int>, j: nat, f: nat)
    requires |c| == 7 && IsBits(c) && j < 7 && f < 7
    ensures var e := c[j := 1 - c[j]]; Sum(e[f := (e[f] + 1) % 2]) % 2 == Sum(c) % 2
  {
    var e := c[j := 1 - c[j]];
    SumOfFlip(c, j);
    SumOfFlip(e, f);
    assert (e[f] + 1) % 2 == 1 - e[f];
  }

  /** `decode` collects the parity of a codeword, and still does after any
      single flip: the syndrome of a flip at `j` is column `j`, the table
      names some position for it, and flipping that position, whichever it
      is, restores the parity. */
  lemma DecodeParityCorrect(c: seq<int>, j: nat)
    requires Codeword(c) && j < 7
    ensures DecodedBit(c) == Sum(c) % 2
    ensures DecodedBit(c[j := 1 - c[j]]) == Sum(c) % 2
  {
    DecodeCodeword(c);
    DecodeSingleFlip(c, j);
  }

  /** A codeword has the zero syndrome, so nothing is flipped. */
  lemma DecodeCodeword(c: seq<int>)
    requires Codeword(c)
    ensures DecodedBit(c) == Sum(c) % 2
  {
    assert Fault((0, 0, 0)).None?;
  }

  lemma DecodeSingleFlip(c: seq<int>, j: nat)
    requires Codeword(c) && j < 7
    ensures DecodedBit(c[j := 1 - c[j]]) == Sum(c) % 2
  {
    var e := c[j := 1 - c[j]];
    FaultOfFlip(c, j);
    TwoFlipsKeepParity(c, j, Fault(Syndrome(e)).value);
  }

  /** The syndrome of a single flip of a codeword names a position. */
  lemma FaultOfFlip(c: seq<int>, j: nat)
    requires Codeword(c) && j < 7
    ensures Fault(Syndrome(c[j := 1 - c[j]])).Some?
  {
    SyndromeOfFlip(c, j);
    FaultOfColumns();
  }

  /** As written, the table sends the syndrome of a flip at position 0 to
      position 1: the zero codeword with its first bit flipped is "corrected"
      to a vector that is not a codeword. */
  lemma TableMisplacesFirstFlip()
    ensures Codeword([0, 0, 0, 0, 0, 0, 0])
    ensures Syndrome([1, 0, 0, 0, 0, 0, 0]) == Column(0) == (1, 1, 0) && Fault(Column(0)) == Some(1)
    ensures Corrected([1, 0, 0, 0, 0, 0, 0]) == [1, 1, 0, 0, 0, 0, 0] && !Codeword([1, 1, 0, 0, 0, 0, 0])
  {
    var zero: seq<int> := [0, 0, 0, 0, 0, 0, 0];
    assert zero == seq(7, _ => 0);
    DotOfZeros(7, CheckRows[0]);
    DotOfZeros(7, CheckRows[1]);
    DotOfZeros(7, CheckRows[2]);
    var e := zero[0 := 1];
    assert e == [1, 0, 0, 0, 0, 0, 0];
    SyndromeOfFlip(zero, 0);
    assert Fault((1, 1, 0)) == Some(1);
    assert e[1 := (e[1] + 1) % 2] == [1, 1, 0, 0, 0, 0, 0];
    DotUpdate(e, CheckRows[1], 1, 1);
  }

  lemma {:induction false} DotOfZeros(n: nat, row: seq<int>)
    requires |row| == n
    ensures Dot(seq(n, _ => 0), row) == 0
    decreases n
  {
    if n > 0 {
      assert seq(n, _ => 0)[..n - 1] == seq(n - 1, _ => 0);
      DotOfZeros(n - 1, row[..n - 1]);
    }
  }

  /** The Hamming decoding table: each nonzero syndrome names the position
      whose check column it is. */
  const ColumnTable: map<(int, int, int), Option<nat>> := map[
    (0, 0, 0) := None, (0, 0, 1) := Some(6), (0, 1, 0) := Some(5), (0, 1, 1) := Some(2),
    (1, 0, 0) := Some(4), (1, 0, 1) := Some(1), (1, 1, 0) := Some(0), (1, 1, 1) := Some(3)]

  function ColumnFault(s: (int, int, int)): (r: Option<nat>)
    ensures r.Some? ==> r.value < 7
  {
    if s in ColumnTable then ColumnTable[s] else None
  }

  /** The outcomes after flipping the position the corrected table names. */
  function ColumnCorrected(o: seq<int>): (r: seq<int>)
    requires |o| == 7
    ensures |r| == 7
  {
    var f := ColumnFault(Syndrome(o));
    if f.Some? then o[f.value := (o[f.value] + 1) % 2] else o
  }

  lemma ColumnTableNamesColumns()
    ensures forall j :: 0 <= j < 7 ==> ColumnFault(Column(j)) == Some(j)
  {
    forall j | 0 <= j < 7 ensures ColumnFault(Column(j)) == Some(j) {
      if j == 0 { assert Column(j) == (1, 1, 0); }
      else if j == 1 { assert Column(j) == (1, 0, 1); }
      else if j == 2 { assert Column(j) == (0, 1, 1); }
      else if j == 3 { assert Column(j) == (1, 1, 1); }
      else if j == 4 { assert Column(j) == (1, 0, 0); }
      else if j == 5 { assert Column(j) == (0, 1, 0); }
      else { assert Column(j) == (0, 0, 1); }
    }
  }

  /** With the corrected table every column names its own position, so a
      single flip of a codeword is undone exactly, and the collected parity
      is the one `decode` as written collects. */
  lemma ColumnTableRestoresCodeword(c: seq<int>, j: nat)
    requires Codeword(c) && j < 7
    ensures ColumnFault(Column(j)) == Some(j)
    ensures ColumnCorrected(c[j := 1 - c[j]]) == c
    ensures Sum(ColumnCorrected(c[j := 1 - c[j]])) % 2 == DecodedBit(c[j := 1 - c[j]])
  {
    ColumnTableNamesColumns();
    var e := c[j := 1 - c[j]];
    SyndromeOfFlip(c, j);
    assert (e[j] + 1) % 2 == c[j];
    assert e[j := (e[j] + 1) % 2] == c;
    DecodeSingleFlip(c, j);
  }

  // ---------------------------------------------------------------------
  // Compiling a kernel

  /** A Z then an X syndrome extraction on each qubit, in order. */
  function Pairs(ts: seq<QubitId>): (r: seq<Node>)
    ensures |r| == 2 * |ts|
    decreases |ts|
  {
    if |ts| == 0 then []
    else Pairs(ts[..|ts| - 1]) + [Nested(ZExtraction(ts[|ts| - 1])), Nested(XExtraction(ts[|ts| - 1]))]
  }

  /** Qubit `i` gets its Z extraction at position `2 i` and its X
      extraction right after. */
  lemma {:induction false} PairsAt(ts: seq<QubitId>, i: nat)
    requires i < |ts|
    ensures Pairs(ts)[2 * i] == Nested(ZExtraction(ts[i])) && Pairs(ts)[2 * i + 1] == Nested(XExtraction(ts[i]))
    decreases |ts|
  {
    var n := |ts| - 1;
    if i < n {
      PairsAt(ts[..n], i);
      assert ts[..n][i] == ts[i];
    }
  }

  /** What instruction `i` of `k` compiles to: a nested kernel is compiled
      recursively; a gate goes through its handler and, unless it is the
      last instruction, is followed by an extraction pair on each of its
      targets; a classical instruction has no handler (a KeyError, or an
      AttributeError when its name is a gate's). */
  function Piece(cc: CallbackCompiler, k: Kernel, i: nat): Result<seq<Node>>
    requires i < |k.instructions|
    decreases k, 0
  {
    match k.instructions[i]
    case Nested(sub) =>
      (match CompiledKernel(cc, sub)
       case Ok(c) => Ok([Nested(c)])
       case Err(e) => Err(e))
    case Quantum(q) =>
      (match Handle(q)
       case Ok(h) => Ok([Nested(h)] + if i == |k.instructions| - 1 then [] else Pairs(q.targets))
       case Err(e) => Err(e))
    case Classic(c) =>
      Err(if c.name in HandlerNames then NoTargetsError else KeyError + c.name)
  }

  /** The compiled forms of the first `n` instructions, or the error of the
      first one that fails. */
  function Pieces(cc: CallbackCompiler, k: Kernel, n: nat): Result<seq<Node>>
    requires n <= |k.instructions|
    decreases k, 1, n
  {
    if n == 0 then Ok([])
    else
      match Pieces(cc, k, n - 1)
      case Err(e) => Err(e)
      case Ok(done) =>
        (match Piece(cc, k, n - 1)
         case Ok(p) => Ok(done + p)
         case Err(e) => Err(e))
  }

  /** What comes before the compiled instructions: for a kernel with a
      target, its preparation and, when there are instructions, a Z and an X
      extraction on it. */
  function Prologue(k: Kernel): seq<Node> {
    (if k.target.Some? then [Nested(PrepareZero(k.target.value))] else []) +
    (if k.target.Some? && |k.instructions| > 0
     then [Nested(ZExtraction(k.target.value)), Nested(XExtraction(k.target.value))]
     else [])
  }

  /** `compile_kernel`: a kernel with a target becomes the chain allocating
      its seven physical qubits around the prologue and the compiled
      instructions, with the decoding callback, itself wrapped in a kernel
      carrying the compiled callback when there is one; a kernel without a
      target keeps its shape. */
  function CompiledKernel(cc: CallbackCompiler, k: Kernel): Result<Kernel>
    decreases k, 2
  {
    match Pieces(cc, k, |k.instructions|)
    case Err(e) => Err(e)
    case Ok(body) => Ok(Assembled(cc, k, Prologue(k) + body))
  }

  /** The kernel `compile_kernel` builds around its list of instructions. */
  function Assembled(cc: CallbackCompiler, k: Kernel, instructions: seq<Node>): Kernel {
    if k.target.Some? then
      var inner := Allocated(PhysicalNames(k.target.value, 7), instructions, Some(DecodeCall));
      var final := cc(k.callback);
      if final.Some? then Kernel(None, [Nested(inner)], final) else inner
    else Kernel(None, instructions, cc(k.callback))
  }

  /** One more instruction compiled. */
  lemma PiecesStep(cc: CallbackCompiler, k: Kernel, i: nat)
    requires i < |k.instructions| && Pieces(cc, k, i).Ok?
    ensures Piece(cc, k, i).Ok? ==> Pieces(cc, k, i + 1) == Ok(Pieces(cc, k, i).value + Piece(cc, k, i).value)
    ensures Piece(cc, k, i).Err? ==> Pieces(cc, k, i + 1) == Piece(cc, k, i)
  {
  }

  lemma {:induction false} PiecesErrorStays(cc: CallbackCompiler, k: Kernel, i: nat, n: nat)
    requires i <= n <= |k.instructions| && Pieces(cc, k, i).Err?
    ensures Pieces(cc, k, n) == Pieces(cc, k, i)
    decreases n
  {
    if n > i {
      PiecesErrorStays(cc, k, i, n - 1);
    }
  }

  /** The extraction pairs after a gate. */
  method ExtractionPairs(ts: seq<QubitId>) returns (r: seq<Node>)
    ensures r == Pairs(ts)
  {
    r := [];
    for i := 0 to |ts|
      invariant r == Pairs(ts[..i])
    {
      var z := ZSyndromeExtraction(ts[i]);
      var x := XSyndromeExtraction(ts[i]);
      assert ts[..i + 1][..i] == ts[..i];
      r := r + [Nested(z), Nested(x)];
    }
    assert ts[..|ts|] == ts;
  }

  /** `SteaneCompiler.compile_kernel`. */
  method CompileKernel(cc: CallbackCompiler, k: Kernel) returns (r: Result<Kernel>)
    ensures r == CompiledKernel(cc, k)
    decreases k, 2
  {
    var instructions := StartInstructions(k);
    var body := CompileBody(cc, k);
    if body.Err? {
      return Err(body.error);
    }
    instructions := instructions + body.value;
    var compiled := Assemble(cc, k, instructions);
    r := Ok(compiled);
  }

  /** The loop of `compile_kernel` over the instructions, appending each
      compiled form and stopping at the first error. */
  method CompileBody(cc: CallbackCompiler, k: Kernel) returns (r: Result<seq<Node>>)
    ensures r == Pieces(cc, k, |k.instructions|)
    decreases k, 1
  {
    var done: seq<Node> := [];
    var i := 0;
    while i < |k.instructions|
      invariant 0 <= i <= |k.instructions|
      invariant Pieces(cc, k, i) == Ok(done)
    {
      var next := AppendInstruction(cc, k, i, done);
      if next.Err? {
        PiecesErrorStays(cc, k, i + 1, |k.instructions|);
        return next;
      }
      done := next.value;
      i := i + 1;
    }
    r := Ok(done);
  }

  /** One turn of the loop: instruction `i` compiled and appended to the
      forms of the instructions before it, or its error. */
  method AppendInstruction(cc: CallbackCompiler, k: Kernel, i: nat, done: seq<Node>) returns (r: Result<seq<Node>>)
    requires i < |k.instructions| && Pieces(cc, k, i) == Ok(done)
    ensures r == Pieces(cc, k, i + 1)
    decreases k, 1, 0
  {
    var p := CompileInstruction(cc, k, i);
    PiecesStep(cc, k, i);
    if p.Err? {
      return Err(p.error);
    }
    r := Ok(done + p.value);
  }

  /** The start of `compile_kernel`: the prologue. */
  method StartInstructions(k: Kernel) returns (instructions: seq<Node>)
    ensures instructions == Prologue(k)
  {
    instructions := [];
    if k.target.Some? {
      instructions := [Nested(PrepareZero(k.target.value))];
    }
    if |k.instructions| > 0 && k.target.Some? {
      var z := ZSyndromeExtraction(k.target.value);
      var x := XSyndromeExtraction(k.target.value);
      instructions := instructions + [Nested(z), Nested(x)];
    }
  }

  /** One turn of `compile_kernel`'s loop. */
  method CompileInstruction(cc: CallbackCompiler, k: Kernel, i: nat) returns (p: Result<seq<Node>>)
    requires i < |k.instructions|
    ensures p == Piece(cc, k, i)
    decreases k, 0
  {
    var isLast := i == |k.instructions| - 1;
    match k.instructions[i] {
      case Nested(sub) =>
        var c := CompileKernel(cc, sub);
        if c.Err? {
          return Err(c.error);
        }
        p := Ok([Nested(c.value)]);
      case Quantum(q) =>
        var h := Handle(q);
        if h.Err? {
          return Err(h.error);
        }
        var pairs: seq<Node> := [];
        if !isLast {
          pairs := ExtractionPairs(q.targets);
        }
        p := Ok([Nested(h.value)] + pairs);
      case Classic(c) =>
        p := Err(if c.name in HandlerNames then NoTargetsError else KeyError + c.name);
    }
  }

  /** The end of `compile_kernel`: allocation and callbacks. */
  method Assemble(cc: CallbackCompiler, k: Kernel, instructions: seq<Node>) returns (r: Kernel)
    ensures r == Assembled(cc, k, instructions)
  {
    if k.target.Some? {
      var inner := Allocate(PhysicalNames(k.target.value, 7), instructions, Some(DecodeCall));
      var final := cc(k.callback);
      if final.Some? {
        return Kernel(None, [Nested(inner)], final);
      }
      return inner;
    }
    r := Kernel(None, instructions, cc(k.callback));
  }

  /** The number of targets of the gates among the first `n` nodes. */
  function TargetsBefore(ns: seq<Node>, n: nat): nat
    requires n <= |ns|
  {
    if n == 0 then 0
    else TargetsBefore(ns, n - 1) + if ns[n - 1].Quantum? then |ns[n - 1].q.targets| else 0
  }

  lemma {:induction false} PiecesBeforeLast(cc: CallbackCompiler, k: Kernel, n: nat)
    requires n < |k.instructions| && Pieces(cc, k, n).Ok?
    ensures |Pieces(cc, k, n).value| == n + 2 * TargetsBefore(k.instructions, n)
  {
    if n > 0 {
      PiecesBeforeLast(cc, k, n - 1);
    }
  }

  /** The compiled instructions hold one node per instruction and one
      extraction pair per target of every gate but the last: nothing is
      placed after the last instruction, which compiles to a single node. */
  lemma ExtractionCount(cc: CallbackCompiler, k: Kernel)
    requires |k.instructions| >= 1 && Pieces(cc, k, |k.instructions|).Ok?
    ensures var n := |k.instructions|;
            |Pieces(cc, k, n).value| == n + 2 * TargetsBefore(k.instructions, n - 1) &&
            |Piece(cc, k, n - 1).value| == 1 &&
            Pieces(cc, k, n).value == Pieces(cc, k, n - 1).value + Piece(cc, k, n - 1).value
  {
    var n := |k.instructions|;
    PiecesBeforeLast(cc, k, n - 1);
  }

  /** A classical instruction, or a gate without a handler, anywhere in the
      kernel makes its compilation fail. */
  lemma UnhandledInstructionFails(cc: CallbackCompiler, k: Kernel, i: nat)
    requires i < |k.instructions|
    requires k.instructions[i].Classic? || (k.instructions[i].Quantum? && k.instructions[i].q.name !in HandlerNames)
    ensures CompiledKernel(cc, k).Err?
  {
    UnhandledPieceFails(cc, k, i);
    PiecesFailAfter(cc, k, i);
    assert Pieces(cc, k, |k.instructions|).Err?;
  }

  lemma UnhandledPieceFails(cc: CallbackCompiler, k: Kernel, i: nat)
    requires i < |k.instructions|
    requires k.instructions[i].Classic? || (k.instructions[i].Quantum? && k.instructions[i].q.name !in HandlerNames)
    ensures Piece(cc, k, i).Err?
  {
  }

  /** A failing instruction makes the whole list fail. */
  lemma PiecesFailAfter(cc: CallbackCompiler, k: Kernel, i: nat)
    requires i < |k.instructions| && Piece(cc, k, i).Err?
    ensures Pieces(cc, k, |k.instructions|).Err?
  {
    if Pieces(cc, k, i).Err? {
      PiecesErrorStays(cc, k, i, |k.instructions|);
    } else {
      PiecesStep(cc, k, i);
      PiecesErrorStays(cc, k, i + 1, |k.instructions|);
    }
  }

  /** The levels of a chain with a callback on top are the chain's below the
      top. */
  lemma {:induction false} LevelOfWithCallback(c: Kernel, callback: Option<ClassicInstruction>, i: nat)
    requires 1 <= i && |c.instructions| == 1 && c.instructions[0].Nested?
    ensures Level(WithCallback(c, callback), i) == Level(c, i)
  {
  }

  /** A compiled kernel with a target allocates its seven physical qubits
      "t.0" .. "t.6" one level each, with the decoding callback on the
      outermost of them only, and the compiled callback, if any, on a kernel
      around them; the innermost level starts with the preparation and,
      when there are instructions, a Z and an X extraction on the target.
      Without a target the kernel keeps its shape and gets the compiled
      callback. */
  lemma CompiledShape(cc: CallbackCompiler, k: Kernel)
    requires CompiledKernel(cc, k).Ok?
    ensures var r := CompiledKernel(cc, k).value;
            k.target.None? ==>
              r.target.None? && r.callback == cc(k.callback) &&
              r.instructions == Pieces(cc, k, |k.instructions|).value
    ensures var r := CompiledKernel(cc, k).value;
            k.target.Some? && cc(k.callback).Some? ==>
              r.target.None? && r.callback == cc(k.callback) && |r.instructions| == 1 && r.instructions[0].Nested?
    ensures var r := CompiledKernel(cc, k).value;
            k.target.Some? ==>
              var inner := if cc(k.callback).Some? then r.instructions[0].kernel else r;
              inner.callback == Some(DecodeCall) &&
              (forall i :: 0 <= i < 7 ==> Level(inner, i).target == Some(Physical(k.target.value, i))) &&
              (forall i :: 1 <= i < 7 ==> Level(inner, i).callback.None?) &&
              |Level(inner, 6).instructions| >= 1 &&
              Level(inner, 6).instructions[0] == Nested(PrepareZero(k.target.value)) &&
              (|k.instructions| > 0 ==>
                 |Level(inner, 6).instructions| >= 3 &&
                 Level(inner, 6).instructions[1] == Nested(ZExtraction(k.target.value)) &&
                 Level(inner, 6).instructions[2] == Nested(XExtraction(k.target.value)))
  {
    if k.target.Some? {
      AllocatedLevels(k.target.value, Prologue(k) + Pieces(cc, k, |k.instructions|).value);
    }
  }

  /** Allocating "t.0" .. "t.6" around `body` with the decoding callback:
      level `i` allocates "t.i", only the outermost level has a callback,
      and the innermost level holds `body`. */
  lemma AllocatedLevels(t: QubitId, body: seq<Node>)
    ensures var inner := Allocated(PhysicalNames(t, 7), body, Some(DecodeCall));
            inner.callback == Some(DecodeCall) &&
            (forall i :: 0 <= i < 7 ==> Level(inner, i).target == Some(Physical(t, i))) &&
            (forall i :: 1 <= i < 7 ==> Level(inner, i).callback.None?) &&
            Level(inner, 6).instructions == body
  {
    var names := PhysicalNames(t, 7);
    var chain := Chain(names, body);
    var inner := Allocated(names, body, Some(DecodeCall));
    assert inner == WithCallback(chain, Some(DecodeCall));
    ChainLevels(names, body, 0);
    forall i | 0 <= i < 7
      ensures Level(inner, i).target == Some(Physical(t, i))
      ensures 1 <= i ==> Level(inner, i).callback.None?
    {
      ChainLevels(names, body, i);
      if i >= 1 {
        LevelOfWithCallback(chain, Some(DecodeCall), i);
      }
    }
    ChainLevels(names, body, 6);
    LevelOfWithCallback(chain, Some(DecodeCall), 6);
  }
}
