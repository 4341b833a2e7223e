/** Gadgets of the three-qubit bit-flip code on the shared stabilizer
    context: each logical qubit is a block of three physical qubits
    stabilized by ZZI and ZIZ. */
module Rep3Bit {
  import opened Wrappers
  import opened Paulis
  import opened Circuit
  import opened LookupTables
  import opened Decoders
  import opened Stabilizers

  const ZZI: PString := [Z, Z, I]
  const ZIZ: PString := [Z, I, Z]
  /** The logical X applied by the `x` gadget. */
  const LogicalX: PString := [X, X, X]
  /** The operator the readout corrects its raw outcome against. */
  const ReadoutOp: PString := [Z, I, I]

  /** The context: three physical qubits per logical qubit, distance 1. */
  method NewContext(qubitCount: nat, registerCount: nat) returns (ctx: Context)
    ensures fresh(ctx) && ctx.Valid() && ctx.blockSize == 3 && ctx.distance == 1
    ensures ctx.qubitCount == qubitCount * 3 && ctx.registerCount == registerCount
    ensures ctx.stabilizers == [] && ctx.tables == map[]
    ensures forall i :: i in ctx.blocks ==> i < qubitCount
    ensures forall i :: 0 <= i < qubitCount ==> i in ctx.blocks && ctx.blocks[i] == [3 * i, 3 * i + 1, 3 * i + 2]
  {
    ctx := new Context.Blocks(qubitCount, 3, registerCount, 1);
    forall i | 0 <= i < qubitCount ensures i in ctx.blocks && ctx.blocks[i] == [3 * i, 3 * i + 1, 3 * i + 2] {
      var b := BlockOf(i, 3);
      assert b[0] == 3 * i && b[1] == 3 * i + 1 && b[2] == 3 * i + 2;
      assert b == [3 * i, 3 * i + 1, 3 * i + 2];
    }
  }

  /** `prepare_zero`: tracks ZZI and ZIZ on the block, resets its qubits,
      then extracts the syndrome. */
  method PrepareZero(inst: Element, ctx: Context) returns (r: Result<Gadget>)
    requires ctx.Valid() && ctx.blockSize == 3
    modifies ctx
    ensures ctx.Valid() && ctx.blocks == old(ctx.blocks)
    ensures r.Ok? <==> LookupBlock(old(ctx.blocks), TargetAt(inst, 0)).Some?
    ensures r.Err? ==> ctx.stabilizers == old(ctx.stabilizers) && ctx.registerCount == old(ctx.registerCount)
    ensures r.Ok? ==>
              var qubits := LookupBlock(old(ctx.blocks), TargetAt(inst, 0)).value;
              ctx.stabilizers == SetAdd(SetAdd(old(ctx.stabilizers), Expand(ctx.qubitCount, ZZI, qubits)),
                                        Expand(ctx.qubitCount, ZIZ, qubits)) &&
              Covers(ctx.stabilizers, qubits) && Group(ctx.stabilizers, qubits) in ctx.tables &&
              r.value == WithCorrection(PrepareZeroName, PerQubit(PrepareZeroName, qubits), qubits,
                                        old(ctx.registerCount), ctx.stabilizers, ctx.tables, false)
  {
    var block := LookupBlock(ctx.blocks, TargetAt(inst, 0));
    if block.None? {
      return Err("KeyError: no block for the target");
    }
    var qubits := block.value;
    ctx.AddStabilizer(ZZI, qubits);
    ctx.AddStabilizer(ZIZ, qubits);
    var g := GadgetWithErrorCorrection(PrepareZeroName, PerQubit(PrepareZeroName, qubits), qubits, ctx, false);
    r := Ok(g);
  }

  /** `x`: XXX on the block, then syndrome extraction. */
  method ApplyX(inst: Element, ctx: Context) returns (r: Result<Gadget>)
    requires ctx.Valid() && ctx.blockSize == 3
    modifies ctx
    ensures ctx.Valid() && ctx.blocks == old(ctx.blocks) && ctx.stabilizers == old(ctx.stabilizers)
    ensures r.Ok? <==> LookupBlock(old(ctx.blocks), TargetAt(inst, 0)).Some?
    ensures r.Err? ==> ctx.registerCount == old(ctx.registerCount)
    ensures r.Ok? ==>
              var qubits := LookupBlock(old(ctx.blocks), TargetAt(inst, 0)).value;
              Covers(ctx.stabilizers, qubits) && Group(ctx.stabilizers, qubits) in ctx.tables &&
              r.value == WithCorrection(XName, [Op(PauliName, qubits, LogicalX)], qubits,
                                        old(ctx.registerCount), ctx.stabilizers, ctx.tables, false)
  {
    var block := LookupBlock(ctx.blocks, TargetAt(inst, 0));
    if block.None? {
      return Err("KeyError: no block for the target");
    }
    var qubits := block.value;
    var g := GadgetWithErrorCorrection(XName, [Op(PauliName, qubits, LogicalX)], qubits, ctx, false);
    r := Ok(g);
  }

  /** `h`: H on each qubit, with an aborting decoder, since the bit-flip
      code cannot carry a transversal H. */
  method ApplyH(inst: Element, ctx: Context) returns (r: Result<Gadget>)
    requires ctx.Valid() && ctx.blockSize == 3
    modifies ctx
    ensures ctx.Valid() && ctx.blocks == old(ctx.blocks) && ctx.stabilizers == old(ctx.stabilizers)
    ensures r.Ok? <==> LookupBlock(old(ctx.blocks), TargetAt(inst, 0)).Some?
    ensures r.Err? ==> ctx.registerCount == old(ctx.registerCount)
    ensures r.Ok? ==>
              var qubits := LookupBlock(old(ctx.blocks), TargetAt(inst, 0)).value;
              Covers(ctx.stabilizers, qubits) && Group(ctx.stabilizers, qubits) in ctx.tables &&
              r.value == WithCorrection(HName, PerQubit(HName, qubits), qubits,
                                        old(ctx.registerCount), ctx.stabilizers, ctx.tables, true)
  {
    var block := LookupBlock(ctx.blocks, TargetAt(inst, 0));
    if block.None? {
      return Err("KeyError: no block for the target");
    }
    var qubits := block.value;
    var g := GadgetWithErrorCorrection(HName, PerQubit(HName, qubits), qubits, ctx, true);
    r := Ok(g);
  }

  /** `cx`: transversal CX from the control block to the target block, then
      syndrome extraction over both blocks together. */
  method ApplyCx(inst: Element, ctx: Context) returns (r: Result<Gadget>)
    requires ctx.Valid() && ctx.blockSize == 3
    modifies ctx
    ensures ctx.Valid() && ctx.blocks == old(ctx.blocks) && ctx.stabilizers == old(ctx.stabilizers)
    ensures r.Ok? <==> LookupBlock(old(ctx.blocks), TargetAt(inst, 0)).Some? &&
                       LookupBlock(old(ctx.blocks), TargetAt(inst, 1)).Some?
    ensures r.Err? ==> ctx.registerCount == old(ctx.registerCount)
    ensures r.Ok? ==>
              var ctl := LookupBlock(old(ctx.blocks), TargetAt(inst, 0)).value;
              var tgt := LookupBlock(old(ctx.blocks), TargetAt(inst, 1)).value;
              Covers(ctx.stabilizers, ctl + tgt) && Group(ctx.stabilizers, ctl + tgt) in ctx.tables &&
              r.value == WithCorrection(CxName, Pairwise(CxName, ctl, tgt), ctl + tgt,
                                        old(ctx.registerCount), ctx.stabilizers, ctx.tables, false)
  {
    var ctlBlock := LookupBlock(ctx.blocks, TargetAt(inst, 0));
    var tgtBlock := LookupBlock(ctx.blocks, TargetAt(inst, 1));
    if ctlBlock.None? || tgtBlock.None? {
      return Err("KeyError: no block for a target");
    }
    var ctl, tgt := ctlBlock.value, tgtBlock.value;
    var g := GadgetWithErrorCorrection(CxName, Pairwise(CxName, ctl, tgt), ctl + tgt, ctx, false);
    r := Ok(g);
  }

  /** `measure_z`: measures the block's first qubit into a fresh raw
      register; the decoder writes the corrected bit, or "?" for an
      aborted block, into the encoded register `targets[0]`. */
  method MeasureZ(inst: Element, ctx: Context) returns (r: Result<Gadget>)
    requires ctx.Valid() && ctx.blockSize == 3
    modifies ctx
    ensures ctx.Valid() && ctx.blocks == old(ctx.blocks) && ctx.stabilizers == old(ctx.stabilizers)
    ensures ctx.tables == old(ctx.tables)
    ensures r.Ok? <==> LookupBlock(old(ctx.blocks), TargetAt(inst, 1)).Some? && RegisterOf(TargetAt(inst, 0)).Some?
    ensures r.Err? ==> ctx.registerCount == old(ctx.registerCount)
    ensures r.Ok? ==>
              var qubits := LookupBlock(old(ctx.blocks), TargetAt(inst, 1)).value;
              var raw := old(ctx.registerCount);
              ctx.registerCount == raw + 1 &&
              r.value == Gadget(ReadoutName, [Instruction(MeasureZName, Some([RegisterId(raw), QubitId(qubits[0])]), [])],
                                Some(Readout(raw, RegisterOf(TargetAt(inst, 0)).value, qubits, ReadoutOp, true)))
  {
    var block := LookupBlock(ctx.blocks, TargetAt(inst, 1));
    var encoded := RegisterOf(TargetAt(inst, 0));
    if block.None? || encoded.None? {
      return Err("no block for the target, or no register to write");
    }
    var qubits := block.value;
    var raw := ctx.NewRegister();
    var circuit := [Instruction(MeasureZName, Some([RegisterId(raw), QubitId(qubits[0])]), [])];
    r := Ok(Gadget(ReadoutName, circuit, Some(Readout(raw, encoded.value, qubits, ReadoutOp, true))));
  }

  /** The code is sound: the generators commute, the logical X commutes with
      them and so does the readout operator, which anticommutes with the
      logical X, so it reads out the logical bit. */
  lemma CodeCommutation()
    ensures SyndromeBit(ZZI, ZIZ) == 0
    ensures SyndromeBit(ZZI, LogicalX) == 0 && SyndromeBit(ZIZ, LogicalX) == 0
    ensures SyndromeBit(ZZI, ReadoutOp) == 0 && SyndromeBit(ZIZ, ReadoutOp) == 0
    ensures SyndromeBit(ReadoutOp, LogicalX) == 1
  {
    Count3(ZZI, ZIZ);
    Count3(ZZI, LogicalX);
    Count3(ZIZ, LogicalX);
    Count3(ZZI, ReadoutOp);
    Count3(ZIZ, ReadoutOp);
    Count3(ReadoutOp, LogicalX);
  }
}
