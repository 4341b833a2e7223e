/** Gadgets of the three-qubit phase-flip code on the shared stabilizer
    context: each logical qubit is a block of three physical qubits
    stabilized by XXI and XIX. */
module Rep3Phase {
  import opened Wrappers
  import opened Paulis
  import opened Circuit
  import opened LookupTables
  import opened Decoders
  import opened Stabilizers

  const XXI: PString := [X, X, I]
  const XIX: PString := [X, I, X]
  /** The logical X applied by the `x` gadget. */
  const LogicalX: PString := [Z, Z, Z]
  /** The operator the readout corrects its raw outcome against. */
  const ReadoutOp: PString := [X, I, I]

  method NewContext(qubitCount: nat, registerCount: nat) returns (ctx: Context)
    ensures fresh(ctx) && ctx.Valid() && ctx.blockSize == 3 && ctx.distance == 1
    ensures ctx.qubitCount == qubitCount * 3 && ctx.registerCount == registerCount
    ensures ctx.stabilizers == [] && ctx.tables == map[]
    ensures forall i :: i in ctx.blocks ==> i < qubitCount
    ensures forall i :: 0 <= i < qubitCount ==> i in ctx.blocks && ctx.blocks[i] == [3 * i, 3 * i + 1, 3 * i + 2]
  {
    ctx := new Context.Blocks(qubitCount, 3, registerCount, 1);
    forall i | 0 <= i < qubitCount ensures i in ctx.blocks && ctx.blocks[i] == [3 * i, 3 * i + 1, 3 * i + 2] {
      var b := BlockOf(i, 3);
      assert b[0] == 3 * i && b[1] == 3 * i + 1 && b[2] == 3 * i + 2;
      assert b == [3 * i, 3 * i + 1, 3 * i + 2];
    }
  }

  /** The preparation circuit: reset, H on each qubit, then CX(0,1) and
      CX(0,2). */
  function PrepareCircuit(qubits: seq<nat>): seq<Element>
    requires |qubits| == 3
  {
    PerQubit(PrepareZeroName, qubits) + PerQubit(HName, qubits) +
    [Op(CxName, [qubits[0], qubits[1]], []), Op(CxName, [qubits[0], qubits[2]], [])]
  }

  /** `prepare_zero`: tracks XXI and XIX on the block, emits the
      preparation, then extracts the syndrome. */
  method PrepareZero(inst: Element, ctx: Context) returns (r: Result<Gadget>)
    requires ctx.Valid() && ctx.blockSize == 3
    modifies ctx
    ensures ctx.Valid() && ctx.blocks == old(ctx.blocks)
    ensures r.Ok? <==> LookupBlock(old(ctx.blocks), TargetAt(inst, 0)).Some?
    ensures r.Err? ==> ctx.stabilizers == old(ctx.stabilizers) && ctx.registerCount == old(ctx.registerCount)
    ensures r.Ok? ==>
              var qubits := LookupBlock(old(ctx.blocks), TargetAt(inst, 0)).value;
              ctx.stabilizers == SetAdd(SetAdd(old(ctx.stabilizers), Expand(ctx.qubitCount, XXI, qubits)),
                                        Expand(ctx.qubitCount, XIX, qubits)) &&
              Covers(ctx.stabilizers, qubits) && Group(ctx.stabilizers, qubits) in ctx.tables &&
              r.value == WithCorrection(PrepareZeroName, PrepareCircuit(qubits), qubits,
                                        old(ctx.registerCount), ctx.stabilizers, ctx.tables, false)
  {
    var block := LookupBlock(ctx.blocks, TargetAt(inst, 0));
    if block.None? {
      return Err("KeyError: no block for the target");
    }
    var qubits := block.value;
    ctx.AddStabilizer(XXI, qubits);
    ctx.AddStabilizer(XIX, qubits);
    var g := GadgetWithErrorCorrection(PrepareZeroName, PrepareCircuit(qubits), qubits, ctx, false);
    r := Ok(g);
  }

  /** `x`: ZZZ on the block, then syndrome extraction. */
  method ApplyX(inst: Element, ctx: Context) returns (r: Result<Gadget>)
    requires ctx.Valid() && ctx.blockSize == 3
    modifies ctx
    ensures ctx.Valid() && ctx.blocks == old(ctx.blocks) && ctx.stabilizers == old(ctx.stabilizers)
    ensures r.Ok? <==> LookupBlock(old(ctx.blocks), TargetAt(inst, 0)).Some?
    ensures r.Err? ==> ctx.registerCount == old(ctx.registerCount)
    ensures r.Ok? ==>
              var qubits := LookupBlock(old(ctx.blocks), TargetAt(inst, 0)).value;
              Covers(ctx.stabilizers, qubits) && Group(ctx.stabilizers, qubits) in ctx.tables &&
              r.value == WithCorrection(XName, [Op(PauliName, qubits, LogicalX)], qubits,
                                        old(ctx.registerCount), ctx.stabilizers, ctx.tables, false)
  {
    var block := LookupBlock(ctx.blocks, TargetAt(inst, 0));
    if block.None? {
      return Err("KeyError: no block for the target");
    }
    var qubits := block.value;
    var g := GadgetWithErrorCorrection(XName, [Op(PauliName, qubits, LogicalX)], qubits, ctx, false);
    r := Ok(g);
  }

  /** A generator's image under the `h` gadget's gates: H on the first
      qubit, then CZ(0,1) and CZ(0,2). */
  function HImage(g: PString): PString
    requires |g| == 3
  {
    CzAt(CzAt(HAt(g, 0), 0, 1), 0, 2)
  }

  function HImages(group: seq<PString>): (r: seq<PString>)
    requires AllLength(group, 3)
    ensures |r| == |group| && forall k :: 0 <= k < |group| ==> r[k] == HImage(group[k])
  {
    seq(|group|, k requires 0 <= k < |group| => HImage(group[k]))
  }

  /** The `h` update on a freshly prepared block: the gates H, CZ(0,1),
      CZ(0,2) turn the generators XXI and XIX into single X operators on
      the second and the third qubit. */
  lemma HImagesOfGenerators()
    ensures HImages([XXI, XIX]) == [[I, X, I], [I, I, X]]
  {
    assert HAt(XXI, 0) == [Z, X, I] && CzAt([Z, X, I], 0, 1) == [I, X, I] && CzAt([I, X, I], 0, 2) == [I, X, I];
    assert HAt(XIX, 0) == [Z, I, X] && CzAt([Z, I, X], 0, 1) == [Z, I, X] && CzAt([Z, I, X], 0, 2) == [I, I, X];
  }

  /** The tracker after the `h` gadget's update, or `None` for the
      `KeyError` of a generator that reaches outside the block. */
  function HTracked(stabs: seq<PString>, n: nat, qubits: seq<nat>): Option<seq<PString>>
    requires InRange(qubits, n) && Covers(stabs, qubits) && |qubits| == 3
  {
    GroupLength(stabs, qubits);
    Retracked(stabs, n, qubits, Group(stabs, qubits), HImages(Group(stabs, qubits)))
  }

  function Reverse3(qubits: seq<nat>): seq<nat>
    requires |qubits| == 3
  {
    [qubits[2], qubits[1], qubits[0]]
  }

  /** The reversed block is again a block: in range, without repeats. */
  lemma Reverse3Block(qubits: seq<nat>, n: nat)
    requires |qubits| == 3 && InRange(qubits, n) && NoDuplicates(qubits)
    ensures InRange(Reverse3(qubits), n) && NoDuplicates(Reverse3(qubits))
  {
    assert qubits[0] != qubits[1] && qubits[0] != qubits[2] && qubits[1] != qubits[2];
  }

  /** The tracker update of `h`: remove, conjugate and add back each
      generator of the group in turn. */
  method RetrackH(ctx: Context, qubits: seq<nat>) returns (ok: bool)
    requires ctx.Valid() && InRange(qubits, ctx.qubitCount) && |qubits| == 3
    modifies ctx
    ensures ctx.Valid() && ctx.blocks == old(ctx.blocks) && ctx.registerCount == old(ctx.registerCount)
    ensures ctx.tables == old(ctx.tables)
    ensures Covers(old(ctx.stabilizers), qubits)
    ensures ok <==> HTracked(old(ctx.stabilizers), ctx.qubitCount, qubits).Some?
    ensures ok ==> ctx.stabilizers == HTracked(old(ctx.stabilizers), ctx.qubitCount, qubits).value
  {
    var group := ctx.FindStabilizerGroup(qubits);
    GroupLength(ctx.stabilizers, qubits);
    var images := HImages(group);
    var k := 0;
    while k < |group|
      invariant 0 <= k <= |group|
      invariant ctx.Valid() && ctx.blocks == old(ctx.blocks) && ctx.registerCount == old(ctx.registerCount)
      invariant ctx.tables == old(ctx.tables)
      invariant Retracked(old(ctx.stabilizers), ctx.qubitCount, qubits, group[..k], images[..k]) == Some(ctx.stabilizers)
    {
      var st := ByH(group[k], 0);
      st := ByCz(st, 0, 1);
      st := ByCz(st, 0, 2);
      assert st == images[k];
      ok := RetrackStep(ctx, old(ctx.stabilizers), qubits, group, images, k, st);
      if !ok {
        return;
      }
      k := k + 1;
    }
    assert group[..k] == group && images[..k] == images;
    ok := true;
  }

  /** `h`: H, CZ, CZ on the block; each generator of the block's group is
      replaced by its image, the block's qubit list is reversed, and the
      syndrome is extracted over the qubits in their former order. */
  method ApplyH(inst: Element, ctx: Context) returns (r: Result<Gadget>)
    requires ctx.Valid() && ctx.blockSize == 3
    modifies ctx
    ensures ctx.Valid()
    ensures LookupBlock(old(ctx.blocks), TargetAt(inst, 0)).None? ==>
              r.Err? && ctx.stabilizers == old(ctx.stabilizers) && ctx.blocks == old(ctx.blocks)
    ensures LookupBlock(old(ctx.blocks), TargetAt(inst, 0)).Some? ==>
              var qubits := LookupBlock(old(ctx.blocks), TargetAt(inst, 0)).value;
              Covers(old(ctx.stabilizers), qubits) &&
              (r.Ok? <==> HTracked(old(ctx.stabilizers), ctx.qubitCount, qubits).Some?) &&
              (r.Ok? ==>
                 ctx.stabilizers == HTracked(old(ctx.stabilizers), ctx.qubitCount, qubits).value &&
                 ctx.blocks == old(ctx.blocks)[TargetAt(inst, 0).value.value as nat := Reverse3(qubits)] &&
                 Covers(ctx.stabilizers, qubits) && Group(ctx.stabilizers, qubits) in ctx.tables &&
                 r.value == WithCorrection(HName, [Op(HName, [qubits[0]], []), Op(CzName, [qubits[0], qubits[1]], []),
                                                   Op(CzName, [qubits[0], qubits[2]], [])],
                                           qubits, old(ctx.registerCount), ctx.stabilizers, ctx.tables, false))
  {
    var block := LookupBlock(ctx.blocks, TargetAt(inst, 0));
    if block.None? {
      return Err("KeyError: no block for the target");
    }
    var qubits := block.value;
    var id := TargetAt(inst, 0).value.value as nat;
    var instructions := [Op(HName, [qubits[0]], []), Op(CzName, [qubits[0], qubits[1]], []),
                         Op(CzName, [qubits[0], qubits[2]], [])];
    var ok := RetrackH(ctx, qubits);
    if !ok {
      return Err("KeyError: a generator reaches outside the block");
    }
    Reverse3Block(qubits, ctx.qubitCount);
    ctx.SetBlock(id, Reverse3(qubits));
    var g := GadgetWithErrorCorrection(HName, instructions, qubits, ctx, false);
    r := Ok(g);
  }

  /** A generator's image under transversal CX from the first three qubits
      to the last three. */
  function CxImage(g: PString): PString
    requires |g| == 6
  {
    CxAt(CxAt(CxAt(g, 0, 3), 1, 4), 2, 5)
  }

  function CxImages(group: seq<PString>): (r: seq<PString>)
    requires AllLength(group, 6)
    ensures |r| == |group| && forall k :: 0 <= k < |group| ==> r[k] == CxImage(group[k])
  {
    seq(|group|, k requires 0 <= k < |group| => CxImage(group[k]))
  }

  function CxTracked(stabs: seq<PString>, n: nat, qubits: seq<nat>): Option<seq<PString>>
    requires InRange(qubits, n) && Covers(stabs, qubits) && |qubits| == 6
  {
    GroupLength(stabs, qubits);
    Retracked(stabs, n, qubits, Group(stabs, qubits), CxImages(Group(stabs, qubits)))
  }

  /** The tracker update of `cx`: remove, conjugate and add back each
      generator of the group in turn. */
  method RetrackCx(ctx: Context, qubits: seq<nat>) returns (ok: bool)
    requires ctx.Valid() && InRange(qubits, ctx.qubitCount) && |qubits| == 6
    modifies ctx
    ensures ctx.Valid() && ctx.blocks == old(ctx.blocks) && ctx.registerCount == old(ctx.registerCount)
    ensures ctx.tables == old(ctx.tables)
    ensures Covers(old(ctx.stabilizers), qubits)
    ensures ok <==> CxTracked(old(ctx.stabilizers), ctx.qubitCount, qubits).Some?
    ensures ok ==> ctx.stabilizers == CxTracked(old(ctx.stabilizers), ctx.qubitCount, qubits).value
  {
    var group := ctx.FindStabilizerGroup(qubits);
    GroupLength(ctx.stabilizers, qubits);
    var images := CxImages(group);
    var k := 0;
    while k < |group|
      invariant 0 <= k <= |group|
      invariant ctx.Valid() && ctx.blocks == old(ctx.blocks) && ctx.registerCount == old(ctx.registerCount)
      invariant ctx.tables == old(ctx.tables)
      invariant Retracked(old(ctx.stabilizers), ctx.qubitCount, qubits, group[..k], images[..k]) == Some(ctx.stabilizers)
    {
      var st := ByCx(group[k], 0, 3);
      st := ByCx(st, 1, 4);
      st := ByCx(st, 2, 5);
      assert st == images[k];
      ok := RetrackStep(ctx, old(ctx.stabilizers), qubits, group, images, k, st);
      if !ok {
        return;
      }
      k := k + 1;
    }
    assert group[..k] == group && images[..k] == images;
    ok := true;
  }

  /** The images of every tracked generator's restriction to `qubits`. */
  function CxImagesOf(stabs: seq<PString>, qubits: seq<nat>): (r: seq<PString>)
    requires Covers(stabs, qubits) && |qubits| == 6
    ensures |r| == |stabs| && forall j :: 0 <= j < |stabs| ==> r[j] == CxImage(Gather(stabs[j], qubits))
  {
    seq(|stabs|, j requires 0 <= j < |stabs| => CxImage(Gather(stabs[j], qubits)))
  }

  /** `cx`: transversal CX; each generator of the six-qubit group is
      replaced by its image, then the syndrome is extracted over both
      blocks. */
  method ApplyCx(inst: Element, ctx: Context) returns (r: Result<Gadget>)
    requires ctx.Valid() && ctx.blockSize == 3
    modifies ctx
    ensures ctx.Valid() && ctx.blocks == old(ctx.blocks)
    ensures LookupBlock(old(ctx.blocks), TargetAt(inst, 0)).None? || LookupBlock(old(ctx.blocks), TargetAt(inst, 1)).None? ==>
              r.Err? && ctx.stabilizers == old(ctx.stabilizers)
    ensures LookupBlock(old(ctx.blocks), TargetAt(inst, 0)).Some? && LookupBlock(old(ctx.blocks), TargetAt(inst, 1)).Some? ==>
              var qubits := LookupBlock(old(ctx.blocks), TargetAt(inst, 0)).value + LookupBlock(old(ctx.blocks), TargetAt(inst, 1)).value;
              Covers(old(ctx.stabilizers), qubits) &&
              (r.Ok? <==> CxTracked(old(ctx.stabilizers), ctx.qubitCount, qubits).Some?) &&
              (r.Ok? ==>
                 ctx.stabilizers == CxTracked(old(ctx.stabilizers), ctx.qubitCount, qubits).value &&
                 Covers(ctx.stabilizers, qubits) && Group(ctx.stabilizers, qubits) in ctx.tables &&
                 r.value == WithCorrection(CxName, Pairwise(CxName, qubits[..3], qubits[3..]), qubits,
                                           old(ctx.registerCount), ctx.stabilizers, ctx.tables, false))
  {
    var ctlBlock := LookupBlock(ctx.blocks, TargetAt(inst, 0));
    var tgtBlock := LookupBlock(ctx.blocks, TargetAt(inst, 1));
    if ctlBlock.None? || tgtBlock.None? {
      return Err("KeyError: no block for a target");
    }
    var ctl, tgt := ctlBlock.value, tgtBlock.value;
    var qubits := ctl + tgt;
    assert qubits[..3] == ctl && qubits[3..] == tgt;
    var ok := RetrackCx(ctx, qubits);
    if !ok {
      return Err("KeyError: a generator reaches outside the blocks");
    }
    var g := GadgetWithErrorCorrection(CxName, Pairwise(CxName, ctl, tgt), qubits, ctx, false);
    r := Ok(g);
  }

  /** `cx` with the evidently intended tracker update: each tracked
      generator that touches the two blocks is conjugated on them in place,
      so a generator that already spans another block is carried along
      instead of stopping the gadget. */
  method ApplyCxCorrected(inst: Element, ctx: Context) returns (r: Result<Gadget>)
    requires ctx.Valid() && ctx.blockSize == 3
    modifies ctx
    ensures ctx.Valid() && ctx.blocks == old(ctx.blocks)
    ensures r.Ok? <==> LookupBlock(old(ctx.blocks), TargetAt(inst, 0)).Some? && LookupBlock(old(ctx.blocks), TargetAt(inst, 1)).Some?
    ensures r.Err? ==> ctx.stabilizers == old(ctx.stabilizers)
    ensures r.Ok? ==>
              var qubits := LookupBlock(old(ctx.blocks), TargetAt(inst, 0)).value + LookupBlock(old(ctx.blocks), TargetAt(inst, 1)).value;
              Covers(old(ctx.stabilizers), qubits) &&
              ctx.stabilizers == Conjugated(old(ctx.stabilizers), qubits, CxImagesOf(old(ctx.stabilizers), qubits)) &&
              Covers(ctx.stabilizers, qubits) && Group(ctx.stabilizers, qubits) in ctx.tables &&
              r.value == WithCorrection(CxName, Pairwise(CxName, qubits[..3], qubits[3..]), qubits,
                                        old(ctx.registerCount), ctx.stabilizers, ctx.tables, false)
  {
    var ctlBlock := LookupBlock(ctx.blocks, TargetAt(inst, 0));
    var tgtBlock := LookupBlock(ctx.blocks, TargetAt(inst, 1));
    if ctlBlock.None? || tgtBlock.None? {
      return Err("KeyError: no block for a target");
    }
    var ctl, tgt := ctlBlock.value, tgtBlock.value;
    var qubits := ctl + tgt;
    assert qubits[..3] == ctl && qubits[3..] == tgt;
    assert Covers(ctx.stabilizers, qubits);
    ctx.ConjugateTracked(qubits, CxImagesOf(ctx.stabilizers, qubits));
    var g := GadgetWithErrorCorrection(CxName, Pairwise(CxName, ctl, tgt), qubits, ctx, false);
    r := Ok(g);
  }

  /** The `cx` gadget as written fails on a generator a previous `cx` spread
      over two blocks: with `XXI XXI III` tracked (block 0 after a `cx` into
      block 1), a `cx` from block 0 into block 2 finds `XXI III` on its
      qubits and cannot remove its expansion `XXI III III`. */
  lemma CxSpanningGeneratorFails()
    ensures CxTracked([[X, X, I, X, X, I, I, I, I]], 9, [0, 1, 2, 6, 7, 8]).None?
  {
    var stabs: seq<PString> := [[X, X, I, X, X, I, I, I, I]];
    var qubits: seq<nat> := [0, 1, 2, 6, 7, 8];
    var g: PString := [X, X, I, I, I, I];
    assert AllLength([g], 6);
    SpanningGeneratorDefeatsRetrack(CxImages([g]));
    assert Group(stabs, qubits) == [g];
  }

  /** On the same tracker the corrected update conjugates the generator in
      place, into `XXI XXI XXI`. */
  lemma CxSpanningGeneratorCorrected()
    ensures var stabs := [XXI + XXI + [I, I, I]];
            var qubits := [0, 1, 2, 6, 7, 8];
            Covers(stabs, qubits) && Conjugated(stabs, qubits, CxImagesOf(stabs, qubits)) == [XXI + XXI + XXI]
  {
    var stabs: seq<PString> := [XXI + XXI + [I, I, I]];
    var qubits: seq<nat> := [0, 1, 2, 6, 7, 8];
    var rst := Gather(stabs[0], qubits);
    assert rst == XXI + [I, I, I];
    var imgs := CxImagesOf(stabs, qubits);
    CxImageExample();
    assert imgs[0] == XXI + XXI;
    assert stabs[..0] == [] && imgs[..0] == [];
    ConjugateOneExample();
    assert Conjugated(stabs, qubits, imgs) == SetAdd([], ConjugateOne(stabs[0], qubits, imgs[0]));
  }

  lemma CxImageExample()
    ensures CxImage(XXI + [I, I, I]) == XXI + XXI
  {
  }

  lemma ConjugateOneExample()
    ensures ConjugateOne(XXI + XXI + [I, I, I], [0, 1, 2, 6, 7, 8], XXI + XXI) == XXI + XXI + XXI
  {
    var s: PString := [X, X, I, X, X, I, I, I, I];
    var qubits: seq<nat> := [0, 1, 2, 6, 7, 8];
    var img: PString := [X, X, I, X, X, I];
    assert XXI + XXI + [I, I, I] == s && XXI + XXI == img;
    ConjugateOneExampleFacts(s, qubits, img);
    var one := ConjugateOne(s, qubits, img);
    var r := Gather(one, qubits);
    assert one[0] == r[0] && one[1] == r[1] && one[2] == r[2];
    assert one[6] == r[3] && one[7] == r[4] && one[8] == r[5];
    assert one == [X, X, I, X, X, I, X, X, I];
  }

  lemma ConjugateOneExampleFacts(s: PString, qubits: seq<nat>, img: PString)
    requires s == [X, X, I, X, X, I, I, I, I] && qubits == [0, 1, 2, 6, 7, 8] && img == [X, X, I, X, X, I]
    ensures |ConjugateOne(s, qubits, img)| == 9 && Gather(ConjugateOne(s, qubits, img), qubits) == img
    ensures ConjugateOne(s, qubits, img)[3] == X && ConjugateOne(s, qubits, img)[4] == X
    ensures ConjugateOne(s, qubits, img)[5] == I
  {
    assert Gather(s, qubits)[0] == X;
    ConjugateOneSpec(s, qubits, img);
    assert 3 !in qubits && 4 !in qubits && 5 !in qubits;
  }

  /** `measure_z`: measures XII over the block into a fresh raw register;
      the decoder writes the corrected bit into the encoded register. */
  method MeasureZ(inst: Element, ctx: Context) returns (r: Result<Gadget>)
    requires ctx.Valid() && ctx.blockSize == 3
    modifies ctx
    ensures ctx.Valid() && ctx.blocks == old(ctx.blocks) && ctx.stabilizers == old(ctx.stabilizers)
    ensures ctx.tables == old(ctx.tables)
    ensures r.Ok? <==> LookupBlock(old(ctx.blocks), TargetAt(inst, 1)).Some? && RegisterOf(TargetAt(inst, 0)).Some?
    ensures r.Err? ==> ctx.registerCount == old(ctx.registerCount)
    ensures r.Ok? ==>
              var qubits := LookupBlock(old(ctx.blocks), TargetAt(inst, 1)).value;
              var raw := old(ctx.registerCount);
              ctx.registerCount == raw + 1 &&
              r.value == Gadget(ReadoutName, [Instruction(MppName, Some([RegisterId(raw)] + QubitTargets(qubits)), ReadoutOp)],
                                Some(Readout(raw, RegisterOf(TargetAt(inst, 0)).value, qubits, ReadoutOp, false)))
  {
    var block := LookupBlock(ctx.blocks, TargetAt(inst, 1));
    var encoded := RegisterOf(TargetAt(inst, 0));
    if block.None? || encoded.None? {
      return Err("no block for the target, or no register to write");
    }
    var qubits := block.value;
    var raw := ctx.NewRegister();
    var circuit := [Instruction(MppName, Some([RegisterId(raw)] + QubitTargets(qubits)), ReadoutOp)];
    r := Ok(Gadget(ReadoutName, circuit, Some(Readout(raw, encoded.value, qubits, ReadoutOp, false))));
  }

  /** The generators commute, the logical X (ZZZ) commutes with them and so
      does the readout operator XII, which anticommutes with ZZZ. */
  lemma CodeCommutation()
    ensures SyndromeBit(XXI, XIX) == 0
    ensures SyndromeBit(XXI, LogicalX) == 0 && SyndromeBit(XIX, LogicalX) == 0
    ensures SyndromeBit(XXI, ReadoutOp) == 0 && SyndromeBit(XIX, ReadoutOp) == 0
    ensures SyndromeBit(ReadoutOp, LogicalX) == 1
  {
    Count3(XXI, XIX);
    Count3(XXI, LogicalX);
    Count3(XIX, LogicalX);
    Count3(XXI, ReadoutOp);
    Count3(XIX, ReadoutOp);
    Count3(ReadoutOp, LogicalX);
  }

  /** Transversal CX spreads each control-block X generator onto the
      target block and each target-block Z-free generator stays put: the
      images of the two blocks' generators. */
  lemma CxImagesOfGenerators()
    ensures CxImage(XXI + [I, I, I]) == XXI + XXI
    ensures CxImage(XIX + [I, I, I]) == XIX + XIX
    ensures CxImage([I, I, I] + XXI) == [I, I, I] + XXI
    ensures CxImage([I, I, I] + XIX) == [I, I, I] + XIX
  {
  }
}
