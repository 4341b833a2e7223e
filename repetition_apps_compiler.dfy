/** The apps-level compiler of the string-based repetition encoder: the
    context is built with the rows ZZI and ZIZ, the X operator XXX and the
    Z operator ZII; each instruction is encoded in order and the encodings
    concatenated; the decoder runs every appended decoder once, in order,
    from the correction III on every logical qubit. */
module RepetitionAppsCompiler {
  import opened Wrappers
  import opened Circuit
  import LookupTables
  import opened Decoders
  import opened RepetitionEncoders
  import Stabilizers
  import SteaneAppsCompiler

  const RowStabilizer: seq<Letters> := ["ZZI", "ZIZ"]
  const XOp: Letters := "XXX"
  const ZOp: Letters := "ZII"

  /** The handler an instruction name dispatches to; the table is the one
      every apps compiler builds from the stabilizer gate definitions. */
  function HandlerOf(name: string): Option<SteaneAppsCompiler.Handler> {
    SteaneAppsCompiler.Dispatch(SteaneAppsCompiler.Definitions, name)
  }

  /** The names this compiler can encode: `encode_h` and `encode_cx` take
      one argument and are called with two. */
  predicate Encodable(name: string) {
    HandlerOf(name) in {Some(SteaneAppsCompiler.PrepareZeroHandler), Some(SteaneAppsCompiler.XHandler),
                        Some(SteaneAppsCompiler.MeasureZHandler)}
  }

  /** Registers a name's encoding allocates: one per row for reset and X,
      one for the readout. */
  function RegistersFor(name: string): nat {
    if HandlerOf(name) == Some(SteaneAppsCompiler.MeasureZHandler) then 1 else |RowStabilizer|
  }

  /** Registers the encodings of the instructions allocate, in total. */
  function RegistersUsed(insts: seq<Element>): nat {
    if insts == [] then 0
    else
      var last := insts[|insts| - 1];
      RegistersUsed(insts[..|insts| - 1]) + (if last.Instruction? then RegistersFor(last.operation) else 0)
  }

  lemma RegistersUsedStep(insts: seq<Element>, k: nat)
    requires k < |insts| && insts[k].Instruction?
    ensures RegistersUsed(insts[..k + 1]) == RegistersUsed(insts[..k]) + RegistersFor(insts[k].operation)
  {
    assert insts[..k + 1][..k] == insts[..k];
  }

  lemma DecodersStep(insts: seq<Element>, k: nat, blocks: map<nat, seq<nat>>, first: nat, next: nat, d: BlockDecoder)
    requires k < |insts| && next == first + RegistersUsed(insts[..k]) && DecoderOf(insts[k], blocks, next) == Some(d)
    ensures DecodersOf(insts[..k + 1], blocks, first) == DecodersOf(insts[..k], blocks, first) + [d]
  {
    assert insts[..k + 1][..k] == insts[..k];
  }

  /** The bookkeeping of one iteration of `compile`'s loop: the new
      decoder extends the matched prefix, and the register count moves on
      by what the instruction allocates. */
  lemma CompileAdvance(insts: seq<Element>, k: nat, blocks: map<nat, seq<nat>>, before: seq<BlockDecoder>,
                       after: seq<BlockDecoder>, next: nat, next': nat, registerCount: nat)
    requires k < |insts| && insts[k].Instruction? && |before| == k
    requires next == registerCount + RegistersUsed(insts[..k])
    requires forall j :: 0 <= j < k ==> Produced(insts[j], before[j])
    requires before == DecodersOf(insts[..k], blocks, registerCount)
    requires |after| == k + 1 && after[..k] == before && Produced(insts[k], after[k])
    requires DecoderOf(insts[k], blocks, next) == Some(after[k])
    requires next' == next + RegistersFor(insts[k].operation)
    ensures next' == registerCount + RegistersUsed(insts[..k + 1])
    ensures forall j :: 0 <= j < k + 1 ==> Produced(insts[j], after[j])
    ensures after == DecodersOf(insts[..k + 1], blocks, registerCount)
  {
    RegistersUsedStep(insts, k);
    DecodersStep(insts, k, blocks, registerCount, next, after[k]);
    assert after == before + [after[k]];
    forall j | 0 <= j < k + 1 ensures Produced(insts[j], after[j]) {
      if j < k {
        assert after[j] == before[j];
      }
    }
  }

  /** The indices the compiler chose itself lie inside the registers it
      allocated and the logical qubits. */
  predicate Inside(d: BlockDecoder, registerTotal: nat, qubitCount: nat) {
    match d
    case SyndromeDecoder(block, registers, _) => block < qubitCount && InRange(registers, registerTotal)
    case MeasureDecoder(register, block, _, _) => register < registerTotal && block < qubitCount
  }

  /** `d` is the decoder the encoding of `inst` appends. */
  predicate Produced(inst: Element, d: BlockDecoder) {
    inst.Instruction? && Encodable(inst.operation) && Shaped(d) &&
    (d.MeasureDecoder? <==> HandlerOf(inst.operation) == Some(SteaneAppsCompiler.MeasureZHandler))
  }

  /** The instructions handler `h` emits for `inst` when the next free
      register is `first`, or `None` where the encoder raises: no block for
      the target, no register to write, or the `TypeError` of `h` and
      `cx`. */
  function EmissionBy(h: SteaneAppsCompiler.Handler, inst: Element, blocks: map<nat, seq<nat>>, first: nat): Option<seq<Element>> {
    match h
    case PrepareZeroHandler =>
      (match Stabilizers.LookupBlock(blocks, Stabilizers.TargetAt(inst, 0))
       case None => None
       case Some(q) => Some(Stabilizers.PerQubit(Stabilizers.PrepareZeroName, q) + MppRows(first, RowStabilizer, q)))
    case XHandler =>
      (match Stabilizers.LookupBlock(blocks, Stabilizers.TargetAt(inst, 0))
       case None => None
       case Some(q) => Some([Stabilizers.Op(Stabilizers.PauliName, q, ToPaulis(XOp))] + MppRows(first, RowStabilizer, q)))
    case MeasureZHandler =>
      (match Stabilizers.LookupBlock(blocks, Stabilizers.TargetAt(inst, 1))
       case None => None
       case Some(q) =>
         if Stabilizers.RegisterOf(Stabilizers.TargetAt(inst, 0)).None? then None
         else Some([Instruction(Stabilizers.MppName, Some([RegisterId(first)] + Stabilizers.QubitTargets(q)), ToPaulis(ZOp))]))
    case _ => None
  }

  /** The decoder handler `h`'s encoder appends for `inst` when the next
      free register is `first`: for reset and X the syndrome decoder of the
      target's logical qubit over the two registers from `first` on and the
      rows ZZI, ZIZ; for the readout the decoder that reads register
      `first` and writes the register the first target names; `None` where
      the encoder raises. */
  function DecoderBy(h: SteaneAppsCompiler.Handler, inst: Element, blocks: map<nat, seq<nat>>, first: nat): Option<BlockDecoder> {
    match h
    case PrepareZeroHandler =>
      if Stabilizers.LookupBlock(blocks, Stabilizers.TargetAt(inst, 0)).None? then None
      else Some(SyndromeDecoder(Stabilizers.TargetAt(inst, 0).value.value as nat, Stabilizers.Range(first, |RowStabilizer|), RowStabilizer))
    case XHandler =>
      if Stabilizers.LookupBlock(blocks, Stabilizers.TargetAt(inst, 0)).None? then None
      else Some(SyndromeDecoder(Stabilizers.TargetAt(inst, 0).value.value as nat, Stabilizers.Range(first, |RowStabilizer|), RowStabilizer))
    case MeasureZHandler =>
      if Stabilizers.LookupBlock(blocks, Stabilizers.TargetAt(inst, 1)).None? then None
      else if Stabilizers.RegisterOf(Stabilizers.TargetAt(inst, 0)).None? then None
      else Some(MeasureDecoder(first, Stabilizers.TargetAt(inst, 1).value.value as nat,
                               Stabilizers.RegisterOf(Stabilizers.TargetAt(inst, 0)).value, ZOp))
    case _ => None
  }

  /** The decoder the encoding of `inst` appends, `None` where `compile`
      raises on it. */
  function DecoderOf(inst: Element, blocks: map<nat, seq<nat>>, first: nat): Option<BlockDecoder> {
    if !inst.Instruction? then None
    else match HandlerOf(inst.operation)
      case None => None
      case Some(h) => DecoderBy(h, inst, blocks, first)
  }

  /** The decoders the encodings of `insts` append, in order, each
      starting at the register the ones before it left free. */
  function DecodersOf(insts: seq<Element>, blocks: map<nat, seq<nat>>, first: nat): seq<BlockDecoder> {
    if insts == [] then []
    else
      var m := |insts| - 1;
      var d := DecoderOf(insts[m], blocks, first + RegistersUsed(insts[..m]));
      DecodersOf(insts[..m], blocks, first) + (if d.Some? then [d.value] else [])
  }

  /** The instructions the encoding of `inst` emits, `None` where `compile`
      raises on it (an unknown name is the `KeyError` of the handler
      table). */
  function Emission(inst: Element, blocks: map<nat, seq<nat>>, first: nat): Option<seq<Element>> {
    if !inst.Instruction? then None
    else match HandlerOf(inst.operation)
      case None => None
      case Some(h) => EmissionBy(h, inst, blocks, first)
  }

  /** The encoded circuit: the emissions of the instructions in order, each
      starting at the register the ones before it left free; `None` as soon
      as one encoding raises. */
  function EncodedCircuit(insts: seq<Element>, blocks: map<nat, seq<nat>>, first: nat): Option<seq<Element>>
    decreases |insts|
  {
    if insts == [] then Some([])
    else match Emission(insts[0], blocks, first)
      case None => None
      case Some(piece) =>
        match EncodedCircuit(insts[1..], blocks, first + RegistersFor(insts[0].operation))
        case None => None
        case Some(rest) => Some(piece + rest)
  }

  /** `prefix` followed by the circuit, if there is one. */
  function After(prefix: seq<Element>, c: Option<seq<Element>>): Option<seq<Element>> {
    if c.None? then None else Some(prefix + c.value)
  }

  lemma EncodedCircuitStart(insts: seq<Element>, blocks: map<nat, seq<nat>>, first: nat)
    ensures After([], EncodedCircuit(insts[0..], blocks, first)) == EncodedCircuit(insts, blocks, first)
  {
    assert insts[0..] == insts;
    var c := EncodedCircuit(insts, blocks, first);
    if c.Some? {
      assert [] + c.value == c.value;
    }
  }

  /** One more instruction: its emission moves from the rest of the
      circuit onto the prefix, or the whole circuit is `None`. */
  lemma EncodedCircuitStep(insts: seq<Element>, k: nat, blocks: map<nat, seq<nat>>, next: nat, prefix: seq<Element>)
    requires k < |insts|
    ensures Emission(insts[k], blocks, next).None? ==> After(prefix, EncodedCircuit(insts[k..], blocks, next)).None?
    ensures Emission(insts[k], blocks, next).Some? ==>
              After(prefix + Emission(insts[k], blocks, next).value,
                    EncodedCircuit(insts[k + 1..], blocks, next + RegistersFor(insts[k].operation))) ==
              After(prefix, EncodedCircuit(insts[k..], blocks, next))
  {
    var s := insts[k..];
    assert s != [] && s[0] == insts[k] && s[1..] == insts[k + 1..];
    var e := Emission(s[0], blocks, next);
    if e.Some? {
      var rest := EncodedCircuit(s[1..], blocks, next + RegistersFor(s[0].operation));
      if rest.Some? {
        assert EncodedCircuit(s, blocks, next) == Some(e.value + rest.value);
        assert prefix + e.value + rest.value == prefix + (e.value + rest.value);
      }
    }
  }

  lemma EncodedCircuitEnd(insts: seq<Element>, blocks: map<nat, seq<nat>>, next: nat, prefix: seq<Element>)
    ensures After(prefix, EncodedCircuit(insts[|insts|..], blocks, next)) == Some(prefix)
  {
    assert insts[|insts|..] == [] && prefix + [] == prefix;
  }

  /** The circuit invariant of `compile`'s loop, carried over one
      instruction whose emission is `piece`. */
  lemma CircuitAdvance(insts: seq<Element>, k: nat, blocks: map<nat, seq<nat>>, next: nat, next': nat,
                       prefix: seq<Element>, piece: seq<Element>, whole: Option<seq<Element>>)
    requires k < |insts| && insts[k].Instruction?
    requires Emission(insts[k], blocks, next) == Some(piece)
    requires next' == next + RegistersFor(insts[k].operation)
    requires After(prefix, EncodedCircuit(insts[k..], blocks, next)) == whole
    ensures After(prefix + piece, EncodedCircuit(insts[k + 1..], blocks, next')) == whole
  {
    EncodedCircuitStep(insts, k, blocks, next, prefix);
  }

  /** What `compile` returns: the encoded circuit, the decoders in order,
      the kernel's sizes, and the register count once every encoder ran. */
  datatype Compiled = Compiled(circuit: seq<Element>, decoders: seq<BlockDecoder>, qubitCount: nat,
                               registerCount: nat, registerTotal: nat)

  predicate AllInside(decoders: seq<BlockDecoder>, registerTotal: nat, qubitCount: nat) {
    forall j :: 0 <= j < |decoders| ==> Inside(decoders[j], registerTotal, qubitCount)
  }

  /** The context as `compile` builds it, with every decoder appended so
      far inside the allocation. */
  predicate Ready(ctx: Context, qubitCount: nat)
    reads ctx
  {
    ctx.stabilizer == RowStabilizer && ctx.xOp == XOp && ctx.zOp == ZOp &&
    (forall i: nat :: i in ctx.blocks ==> i < qubitCount) &&
    AllInside(ctx.decoders, ctx.nextMeasurement, qubitCount)
  }

  lemma InsideGrows(d: BlockDecoder, total: nat, total': nat, qubitCount: nat)
    requires Inside(d, total, qubitCount) && total <= total'
    ensures Inside(d, total', qubitCount)
  {
  }

  /** Allocating more registers keeps the earlier decoders inside, so
      appending one that is inside keeps them all inside. */
  lemma AppendInside(ds: seq<BlockDecoder>, d: BlockDecoder, total: nat, total': nat, qubitCount: nat)
    requires AllInside(ds, total, qubitCount) && Inside(d, total', qubitCount) && total <= total'
    ensures AllInside(ds + [d], total', qubitCount)
  {
    forall j | 0 <= j < |ds + [d]| ensures Inside((ds + [d])[j], total', qubitCount) {
      if j < |ds| {
        InsideGrows(ds[j], total, total', qubitCount);
      }
    }
  }

  /** What one encoder did to the context: it appended one shaped decoder,
      of the readout kind exactly for `measure`, inside the registers it
      allocated. */
  twostate predicate Encoded(ctx: Context, h: SteaneAppsCompiler.Handler, inst: Element, qubitCount: nat)
    reads ctx
  {
    |ctx.decoders| == |old(ctx.decoders)| + 1 && ctx.decoders[..|old(ctx.decoders)|] == old(ctx.decoders) &&
    DecoderBy(h, inst, ctx.blocks, old(ctx.nextMeasurement)) == Some(ctx.decoders[|old(ctx.decoders)|]) &&
    Shaped(ctx.decoders[|old(ctx.decoders)|]) &&
    (ctx.decoders[|old(ctx.decoders)|].MeasureDecoder? <==> h == SteaneAppsCompiler.MeasureZHandler) &&
    ctx.nextMeasurement == old(ctx.nextMeasurement) + (if h == SteaneAppsCompiler.MeasureZHandler then 1 else 2)
  }

  method PrepareZeroStep(inst: Element, ctx: Context, ghost qubitCount: nat) returns (r: Result<seq<Element>>)
    requires Ready(ctx, qubitCount)
    modifies ctx
    ensures Ready(ctx, qubitCount)
    ensures r.Ok? ==> Encoded(ctx, SteaneAppsCompiler.PrepareZeroHandler, inst, qubitCount)
    ensures r.Ok? <==> EmissionBy(SteaneAppsCompiler.PrepareZeroHandler, inst, ctx.blocks, old(ctx.nextMeasurement)).Some?
    ensures r.Ok? ==> r.value == EmissionBy(SteaneAppsCompiler.PrepareZeroHandler, inst, ctx.blocks, old(ctx.nextMeasurement)).value
  {
    ghost var before := ctx.decoders;
    ghost var next := ctx.nextMeasurement;
    r := EncodePrepareZero(inst, ctx);
    if r.Ok? {
      AppendInside(before, ctx.decoders[|before|], next, ctx.nextMeasurement, qubitCount);
      assert ctx.decoders == before + [ctx.decoders[|before|]];
    }
  }

  method XStep(inst: Element, ctx: Context, ghost qubitCount: nat) returns (r: Result<seq<Element>>)
    requires Ready(ctx, qubitCount)
    modifies ctx
    ensures Ready(ctx, qubitCount)
    ensures r.Ok? ==> Encoded(ctx, SteaneAppsCompiler.XHandler, inst, qubitCount)
    ensures r.Ok? <==> EmissionBy(SteaneAppsCompiler.XHandler, inst, ctx.blocks, old(ctx.nextMeasurement)).Some?
    ensures r.Ok? ==> r.value == EmissionBy(SteaneAppsCompiler.XHandler, inst, ctx.blocks, old(ctx.nextMeasurement)).value
  {
    ghost var before := ctx.decoders;
    ghost var next := ctx.nextMeasurement;
    r := EncodeX(inst, ctx);
    if r.Ok? {
      AppendInside(before, ctx.decoders[|before|], next, ctx.nextMeasurement, qubitCount);
      assert ctx.decoders == before + [ctx.decoders[|before|]];
    }
  }

  method MeasureStep(inst: Element, ctx: Context, ghost qubitCount: nat) returns (r: Result<seq<Element>>)
    requires Ready(ctx, qubitCount)
    modifies ctx
    ensures Ready(ctx, qubitCount)
    ensures r.Ok? ==> Encoded(ctx, SteaneAppsCompiler.MeasureZHandler, inst, qubitCount)
    ensures r.Ok? <==> EmissionBy(SteaneAppsCompiler.MeasureZHandler, inst, ctx.blocks, old(ctx.nextMeasurement)).Some?
    ensures r.Ok? ==> r.value == EmissionBy(SteaneAppsCompiler.MeasureZHandler, inst, ctx.blocks, old(ctx.nextMeasurement)).value
  {
    ghost var before := ctx.decoders;
    ghost var next := ctx.nextMeasurement;
    r := EncodeMeasure(inst, ctx);
    if r.Ok? {
      AppendInside(before, ctx.decoders[|before|], next, ctx.nextMeasurement, qubitCount);
      assert ctx.decoders == before + [ctx.decoders[|before|]];
    }
  }

  /** The encoder a handler calls; `h` and `cx` raise a TypeError because
      `encode_h` and `encode_cx` take one argument and get two. */
  method CompileOne(h: SteaneAppsCompiler.Handler, inst: Element, ctx: Context, ghost qubitCount: nat)
    returns (r: Result<seq<Element>>)
    requires Ready(ctx, qubitCount)
    modifies ctx
    ensures Ready(ctx, qubitCount)
    ensures r.Ok? ==> h in {SteaneAppsCompiler.PrepareZeroHandler, SteaneAppsCompiler.XHandler, SteaneAppsCompiler.MeasureZHandler}
    ensures r.Ok? ==> Encoded(ctx, h, inst, qubitCount)
    ensures r.Ok? <==> EmissionBy(h, inst, ctx.blocks, old(ctx.nextMeasurement)).Some?
    ensures r.Ok? ==> r.value == EmissionBy(h, inst, ctx.blocks, old(ctx.nextMeasurement)).value
  {
    match h
    case PrepareZeroHandler => r := PrepareZeroStep(inst, ctx, qubitCount);
    case XHandler => r := XStep(inst, ctx, qubitCount);
    case MeasureZHandler => r := MeasureStep(inst, ctx, qubitCount);
    case _ => r := Err("TypeError: the encoder takes 1 positional argument but 2 were given");
  }

  /** One iteration of `compile`'s loop: dispatch, then encode. */
  method CompileStep(inst: Element, ctx: Context, ghost qubitCount: nat) returns (r: Result<seq<Element>>)
    requires inst.Instruction? && Ready(ctx, qubitCount)
    modifies ctx
    ensures Ready(ctx, qubitCount)
    ensures r.Ok? ==> |ctx.decoders| == |old(ctx.decoders)| + 1 && ctx.decoders[..|old(ctx.decoders)|] == old(ctx.decoders)
    ensures r.Ok? ==> Produced(inst, ctx.decoders[|old(ctx.decoders)|])
    ensures r.Ok? ==> DecoderOf(inst, ctx.blocks, old(ctx.nextMeasurement)) == Some(ctx.decoders[|old(ctx.decoders)|])
    ensures r.Ok? ==> ctx.nextMeasurement == old(ctx.nextMeasurement) + RegistersFor(inst.operation)
    ensures r.Ok? <==> Emission(inst, ctx.blocks, old(ctx.nextMeasurement)).Some?
    ensures r.Ok? ==> r.value == Emission(inst, ctx.blocks, old(ctx.nextMeasurement)).value
  {
    var h := HandlerOf(inst.operation);
    if h.None? {
      return Err("KeyError: " + inst.operation);
    }
    r := CompileOne(h.value, inst, ctx, qubitCount);
  }

  lemma EveryNameEncodable(elems: seq<Element>, decoders: seq<BlockDecoder>)
    requires |decoders| == |SteaneAppsCompiler.Instructions(elems)|
    requires forall k :: 0 <= k < |decoders| ==> Produced(SteaneAppsCompiler.Instructions(elems)[k], decoders[k])
    ensures forall e :: e in elems && e.Instruction? ==> Encodable(e.operation)
  {
    var insts := SteaneAppsCompiler.Instructions(elems);
    forall e | e in elems && e.Instruction? ensures Encodable(e.operation) {
      var j :| 0 <= j < |insts| && insts[j] == e;
      assert Produced(insts[j], decoders[j]);
    }
  }

  /** `compile`: every instruction is encoded in order; an unknown name, an
      `h` or a `cx` makes it raise. The decoders match the instructions one
      for one and the registers they read were allocated by the encoders,
      from the kernel's register count on. */
  method Compile(elems: seq<Element>, qubitCount: nat, registerCount: nat) returns (r: Result<Compiled>)
    ensures r.Ok? ==> r.value.qubitCount == qubitCount && r.value.registerCount == registerCount
    ensures r.Ok? ==> |r.value.decoders| == CountInstructions(elems)
    ensures r.Ok? ==> forall k :: 0 <= k < |r.value.decoders| ==>
              Produced(SteaneAppsCompiler.Instructions(elems)[k], r.value.decoders[k]) &&
              Inside(r.value.decoders[k], r.value.registerTotal, qubitCount)
    ensures r.Ok? ==> r.value.registerTotal == registerCount + RegistersUsed(SteaneAppsCompiler.Instructions(elems))
    ensures r.Ok? ==> r.value.decoders == DecodersOf(SteaneAppsCompiler.Instructions(elems), Stabilizers.BlockMap(qubitCount, 3), registerCount)
    ensures (exists e :: e in elems && e.Instruction? && !Encodable(e.operation)) ==> r.Err?
    ensures var circuit := EncodedCircuit(SteaneAppsCompiler.Instructions(elems), Stabilizers.BlockMap(qubitCount, 3), registerCount);
            (r.Ok? <==> circuit.Some?) && (r.Ok? ==> r.value.circuit == circuit.value)
  {
    var ctx := new Context(qubitCount, registerCount, RowStabilizer, XOp, ZOp);
    var insts := SteaneAppsCompiler.Instructions(elems);
    var circuit: seq<Element> := [];
    var k := 0;
    EncodedCircuitStart(insts, ctx.blocks, registerCount);
    while k < |insts|
      invariant 0 <= k <= |insts| && |ctx.decoders| == k
      invariant Ready(ctx, qubitCount)
      invariant ctx.nextMeasurement == registerCount + RegistersUsed(insts[..k])
      invariant forall j :: 0 <= j < k ==> Produced(insts[j], ctx.decoders[j])
      invariant ctx.blocks == Stabilizers.BlockMap(qubitCount, 3)
      invariant ctx.decoders == DecodersOf(insts[..k], ctx.blocks, registerCount)
      invariant After(circuit, EncodedCircuit(insts[k..], ctx.blocks, ctx.nextMeasurement)) ==
                EncodedCircuit(insts, ctx.blocks, registerCount)
    {
      ghost var before := ctx.decoders;
      ghost var next := ctx.nextMeasurement;
      var piece := CompileStep(insts[k], ctx, qubitCount);
      if piece.Err? {
        EncodedCircuitStep(insts, k, ctx.blocks, next, circuit);
        return Err(piece.error);
      }
      CompileAdvance(insts, k, ctx.blocks, before, ctx.decoders, next, ctx.nextMeasurement, registerCount);
      CircuitAdvance(insts, k, ctx.blocks, next, ctx.nextMeasurement, circuit, piece.value, EncodedCircuit(insts, ctx.blocks, registerCount));
      circuit := circuit + piece.value;
      k := k + 1;
    }
    EveryNameEncodable(elems, ctx.decoders);
    assert insts[..k] == insts;
    EncodedCircuitEnd(insts, ctx.blocks, ctx.nextMeasurement, circuit);
    r := Ok(Compiled(circuit, ctx.decoders, qubitCount, registerCount, ctx.nextMeasurement));
  }

  // ---------------------------------------------------------------------
  // The compiled decoder

  /** One decoder on the shared state; an index it cannot reach raises. */
  function RunOne(d: BlockDecoder, s: DecoderState): Result<DecoderState> {
    if Covered(d, |s.0|, |s.1|) then Apply(d, s.0, s.1) else Err("index out of range")
  }

  /** All decoders, in the order they were appended, each once. */
  function RunAll(decoders: seq<BlockDecoder>, s: DecoderState): Result<DecoderState> {
    if decoders == [] then Ok(s)
    else match RunAll(decoders[..|decoders| - 1], s)
      case Err(e) => Err(e)
      case Ok(t) => RunOne(decoders[|decoders| - 1], t)
  }

  /** The correction III on each of `n` logical qubits. */
  function StartCorrections(n: nat): (r: seq<Letters>)
    ensures |r| == n && forall b :: 0 <= b < n ==> r[b] == "III"
  {
    seq(n, _ => "III")
  }

  /** The decoder's result: the first `registerCount` cells of the memory
      once every decoder has run. */
  function Decoded(c: Compiled, measured: seq<Cell>): Result<seq<Cell>> {
    match RunAll(c.decoders, (measured, StartCorrections(c.qubitCount)))
    case Err(e) => Err(e)
    case Ok(s) => Ok(s.0[..LookupTables.Min(c.registerCount, |s.0|)])
  }

  /** Once a decoder has raised, the whole decoder raises. */
  lemma {:induction false} RunAllFailureStays(decoders: seq<BlockDecoder>, k: nat, s: DecoderState)
    requires k <= |decoders| && RunAll(decoders[..k], s).Err?
    ensures RunAll(decoders, s).Err?
    decreases |decoders| - k
  {
    if k < |decoders| {
      assert decoders[..k + 1][..k] == decoders[..k];
      RunAllFailureStays(decoders, k + 1, s);
    } else {
      assert decoders[..k] == decoders;
    }
  }

  /** From a sane state, shaped decoders whose indices all exist never
      raise, keep the state sane and keep its lengths. */
  lemma {:induction false} RunAllSane(decoders: seq<BlockDecoder>, s: DecoderState)
    requires Sane(s)
    requires forall j :: 0 <= j < |decoders| ==> Shaped(decoders[j]) && Covered(decoders[j], |s.0|, |s.1|)
    ensures RunAll(decoders, s).Ok?
    ensures Sane(RunAll(decoders, s).value)
    ensures |RunAll(decoders, s).value.0| == |s.0| && |RunAll(decoders, s).value.1| == |s.1|
    decreases |decoders|
  {
    if decoders != [] {
      var m := |decoders| - 1;
      RunAllSane(decoders[..m], s);
      var t := RunAll(decoders[..m], s).value;
      ApplyKeepsSane(decoders[m], t);
    }
  }

  /** A compiled decoder run on a memory of values at least as long as the
      registers the encoders allocated, whose readout targets are inside
      it, never raises: corrections start at III and stay bit flips, so
      `decode_syndrome` always sees a pair of bits and `multiply` never
      asserts; the result holds `min(registerCount, |measured|)` cells. */
  lemma DecodeNeverFails(c: Compiled, measured: seq<Cell>)
    requires AllKnown(measured) && c.registerTotal <= |measured|
    requires forall j :: 0 <= j < |c.decoders| ==> Shaped(c.decoders[j]) && Inside(c.decoders[j], c.registerTotal, c.qubitCount)
    requires forall j :: 0 <= j < |c.decoders| && c.decoders[j].MeasureDecoder? ==> c.decoders[j].encoded < |measured|
    ensures Decoded(c, measured).Ok?
    ensures |Decoded(c, measured).value| == LookupTables.Min(c.registerCount, |measured|)
  {
    var s := (measured, StartCorrections(c.qubitCount));
    forall j | 0 <= j < |c.decoders| ensures Covered(c.decoders[j], |s.0|, |s.1|) {
      InsideGrows(c.decoders[j], c.registerTotal, |measured|, c.qubitCount);
    }
    RunAllSane(c.decoders, s);
  }

  /** Calls one decoder on the shared arrays. */
  lemma RunAllSnoc(decoders: seq<BlockDecoder>, k: nat, s: DecoderState, t: DecoderState)
    requires k < |decoders| && RunAll(decoders[..k], s) == Ok(t)
    ensures RunAll(decoders[..k + 1], s) == RunOne(decoders[k], t)
  {
    assert decoders[..k + 1][..k] == decoders[..k];
  }

  method RunDecoderOn(d: BlockDecoder, memory: array<Cell>, corrections: array<Letters>) returns (ok: bool)
    modifies memory, corrections
    ensures ok <==> RunOne(d, (old(memory[..]), old(corrections[..]))).Ok?
    ensures ok ==> RunOne(d, (old(memory[..]), old(corrections[..]))).value == (memory[..], corrections[..])
  {
    if !Covered(d, memory.Length, corrections.Length) {
      return false;
    }
    ok := RepetitionEncoders.RunDecoder(d, memory, corrections);
  }

  /** The compiled decoder: the decoders run in place on one memory array
      and one correction array, then the kernel's registers are returned. */
  method Decode(c: Compiled, measured: seq<Cell>) returns (r: Result<seq<Cell>>)
    ensures r.Ok? <==> Decoded(c, measured).Ok?
    ensures r.Ok? ==> r.value == Decoded(c, measured).value
  {
    var memory := new Cell[|measured|](i requires 0 <= i < |measured| => measured[i]);
    var corrections := new Letters[c.qubitCount](_ => "III");
    ghost var start := (measured, StartCorrections(c.qubitCount));
    assert memory[..] == start.0;
    assert corrections[..] == start.1;
    var k := 0;
    while k < |c.decoders|
      invariant 0 <= k <= |c.decoders|
      invariant RunAll(c.decoders[..k], start) == Ok((memory[..], corrections[..]))
    {
      ghost var before := (memory[..], corrections[..]);
      var ok := RunDecoderOn(c.decoders[k], memory, corrections);
      RunAllSnoc(c.decoders, k, start, before);
      if !ok {
        RunAllFailureStays(c.decoders, k + 1, start);
        return Err("a decoder raised");
      }
      k := k + 1;
    }
    assert c.decoders[..k] == c.decoders;
    r := Ok(memory[..LookupTables.Min(c.registerCount, memory.Length)]);
  }
}
