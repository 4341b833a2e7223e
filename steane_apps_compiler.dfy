/** The apps-level compiler of the Steane layer: one Steane gadget per
    instruction, the gadget circuits concatenated, and a decoder that runs
    every gadget decoder in order over one shared memory and one shared
    correction vector. */
module SteaneAppsCompiler {
  import opened Wrappers
  import opened Paulis
  import opened Circuit
  import opened LookupTables
  import opened Decoders
  import opened Stabilizers
  import SteaneGadgets

  /** The gadget builders an instruction can dispatch to. */
  datatype Handler = PrepareZeroHandler | HHandler | XHandler | CxHandler | MeasureZHandler

  /** The dispatch table's rows: a gate's name, its aliases, its handler. */
  const Definitions: seq<(string, seq<string>, Handler)> := [
    (PrepareZeroName, ["|0>", "|+z\U{27E9}", "|+z>"], PrepareZeroHandler),
    (HName, [], HHandler),
    (XName, [], XHandler),
    (CxName, ["cnot"], CxHandler),
    (MeasureZName, ["mz", "\U{27E8}+z|", "measure"], MeasureZHandler)
  ]

  /** The handler of `name` in the dictionary built from `defs`: the last
      row that lists the name as its name or an alias. */
  function Dispatch(defs: seq<(string, seq<string>, Handler)>, name: string): (r: Option<Handler>)
    ensures r.Some? <==> exists k :: 0 <= k < |defs| && (name == defs[k].0 || name in defs[k].1)
    ensures r.Some? ==> exists k :: 0 <= k < |defs| && (name == defs[k].0 || name in defs[k].1) && r.value == defs[k].2
  {
    if defs == [] then None
    else
      var last := defs[|defs| - 1];
      if name == last.0 || name in last.1 then Some(last.2)
      else
        var r := Dispatch(defs[..|defs| - 1], name);
        assert forall k :: 0 <= k < |defs| - 1 ==> defs[..|defs| - 1][k] == defs[k];
        r
  }

  /** The twelve names the compiler accepts, and where each goes. */
  lemma HandlerNames(name: string)
    ensures Dispatch(Definitions, name) == Some(PrepareZeroHandler) <==>
              name in [PrepareZeroName, "|0>", "|+z\U{27E9}", "|+z>"]
    ensures Dispatch(Definitions, name) == Some(HHandler) <==> name == HName
    ensures Dispatch(Definitions, name) == Some(XHandler) <==> name == XName
    ensures Dispatch(Definitions, name) == Some(CxHandler) <==> name in [CxName, "cnot"]
    ensures Dispatch(Definitions, name) == Some(MeasureZHandler) <==>
              name in [MeasureZName, "mz", "\U{27E8}+z|", "measure"]
  {
    DispatchDefinitions(name);
  }

  /** The dictionary lookup written out, the last row first. */
  lemma DispatchDefinitions(name: string)
    ensures Dispatch(Definitions, name) ==
              if name in [MeasureZName, "mz", "\U{27E8}+z|", "measure"] then Some(MeasureZHandler)
              else if name in [CxName, "cnot"] then Some(CxHandler)
              else if name == XName then Some(XHandler)
              else if name == HName then Some(HHandler)
              else if name in [PrepareZeroName, "|0>", "|+z\U{27E9}", "|+z>"] then Some(PrepareZeroHandler)
              else None
  {
    var d := Definitions;
    assert d[..4] == [d[0], d[1], d[2], d[3]];
    assert d[..4][..3] == [d[0], d[1], d[2]];
    assert d[..4][..3][..2] == [d[0], d[1]];
    assert d[..4][..3][..2][..1] == [d[0]];
    assert d[..4][..3][..2][..1][..0] == [];
  }

  /** The name the gadget a handler builds carries. */
  function GadgetName(h: Handler): string {
    match h
    case PrepareZeroHandler => PrepareZeroName
    case HHandler => HName
    case XHandler => XName
    case CxHandler => CxName
    case MeasureZHandler => ReadoutName
  }

  /** The elements of a circuit that are instructions, in order. */
  function Instructions(elems: seq<Element>): (r: seq<Element>)
    ensures |r| == CountInstructions(elems)
    ensures forall k :: 0 <= k < |r| ==> r[k].Instruction? && r[k] in elems
    ensures forall e :: e in elems && e.Instruction? ==> e in r
    decreases |elems|
  {
    if elems == [] then []
    else
      var m := |elems| - 1;
      var rest := Instructions(elems[..m]);
      assert forall e :: e in elems && e != elems[m] ==> e in elems[..m];
      assert forall e :: e in elems[..m] ==> e in elems;
      if elems[m].Instruction? then rest + [elems[m]] else rest
  }

  /** Selecting the instructions keeps their order: over a concatenation
      it is the instructions of each part, one after the other. */
  lemma {:induction false} InstructionsAppend(a: seq<Element>, b: seq<Element>)
    ensures Instructions(a + b) == Instructions(a) + Instructions(b)
    decreases |b|
  {
    if b != [] {
      var m := |b| - 1;
      assert (a + b)[..|a + b| - 1] == a + b[..m];
      InstructionsAppend(a, b[..m]);
    } else {
      assert a + b == a;
    }
  }

  /** The in-order concatenation of the gadget circuits. */
  function Circuits(gadgets: seq<Gadget>): seq<Element> {
    if gadgets == [] then [] else Circuits(gadgets[..|gadgets| - 1]) + gadgets[|gadgets| - 1].circuit
  }

  /** What `compile` returns: the encoded circuit, the gadgets whose
      decoders the compiled decoder runs, and the sizes that decoder uses. */
  datatype Compiled = Compiled(circuit: seq<Element>, gadgets: seq<Gadget>, qubitCount: nat, registerCount: nat)

  /** Every block has the seven qubits of a Steane block. */
  predicate SteaneBlocks(blocks: map<nat, seq<nat>>) {
    forall b :: b in blocks ==> |blocks[b]| == 7
  }

  /** The physical qubits a handler acts on: the block of the first target,
      both blocks for `cx`, the block of the second target for the readout;
      `None` when a target names no block. */
  function HandlerQubits(h: Handler, inst: Element, blocks: map<nat, seq<nat>>): (r: Option<seq<nat>>)
    requires SteaneBlocks(blocks)
    ensures r.Some? ==> |r.value| == if h == CxHandler then 14 else 7
  {
    match h
    case CxHandler =>
      var ctl := LookupBlock(blocks, TargetAt(inst, 0));
      var tgt := LookupBlock(blocks, TargetAt(inst, 1));
      if ctl.Some? && tgt.Some? then Some(ctl.value + tgt.value) else None
    case MeasureZHandler => LookupBlock(blocks, TargetAt(inst, 1))
    case _ => LookupBlock(blocks, TargetAt(inst, 0))
  }

  /** The gates a handler places before the syndrome extraction. */
  function HandlerGates(h: Handler, q: seq<nat>): seq<Element>
    requires |q| == if h == CxHandler then 14 else 7
  {
    match h
    case PrepareZeroHandler => SteaneGadgets.PrepareCircuit(q)
    case HHandler => PerQubit(HName, q)
    case XHandler => [Op(XName, [q[3]], []), Op(XName, [q[4]], []), Op(XName, [q[6]], [])]
    case CxHandler => Pairwise(CxName, q[..7], q[7..])
    case MeasureZHandler => []
  }

  /** `g` is what handler `h` builds for `inst` over `blocks` when the
      register counter stands at `first`: its gates on the instruction's
      blocks, then the syndrome extraction into registers `first ..` with
      the syndrome decoder of a tracker that covers those qubits and a
      table memoized for their group; for the readout, one `mpp` of ZOp
      over the block into register `first`, whose decoder writes the
      register the first target names. */
  ghost predicate BuiltAt(h: Handler, inst: Element, blocks: map<nat, seq<nat>>, first: nat, g: Gadget)
    requires SteaneBlocks(blocks)
  {
    var q := HandlerQubits(h, inst, blocks);
    q.Some? &&
    if h == MeasureZHandler then
      RegisterOf(TargetAt(inst, 0)).Some? &&
      g == Gadget(ReadoutName, [Instruction(MppName, Some([RegisterId(first)] + QubitTargets(q.value)), SteaneGadgets.ZOp)],
                  Some(Readout(first, RegisterOf(TargetAt(inst, 0)).value, q.value, SteaneGadgets.ZOp, false)))
    else
      exists stabs: seq<PString>, tables: map<seq<PString>, Table> ::
        Covers(stabs, q.value) && Group(stabs, q.value) in tables &&
        g == WithCorrection(GadgetName(h), HandlerGates(h, q.value), q.value, first, stabs, tables, false)
  }

  /** `g` is what handler `h` builds for `inst` over `blocks`, whatever
      the register counter stood at. */
  ghost predicate Built(h: Handler, inst: Element, blocks: map<nat, seq<nat>>, g: Gadget)
    requires SteaneBlocks(blocks)
  {
    exists first: nat :: BuiltAt(h, inst, blocks, first, g)
  }

  /** The gates of a handler other than the readout, followed by the
      syndrome extraction and decoder of its blocks, are what it builds. */
  lemma CorrectedGadgetBuilt(h: Handler, inst: Element, blocks: map<nat, seq<nat>>, g: Gadget, first: nat,
                             stabs: seq<PString>, tables: map<seq<PString>, Table>)
    requires SteaneBlocks(blocks) && h != MeasureZHandler && HandlerQubits(h, inst, blocks).Some?
    requires Covers(stabs, HandlerQubits(h, inst, blocks).value) && Group(stabs, HandlerQubits(h, inst, blocks).value) in tables
    requires var q := HandlerQubits(h, inst, blocks).value;
             g == WithCorrection(GadgetName(h), HandlerGates(h, q), q, first, stabs, tables, false)
    ensures BuiltAt(h, inst, blocks, first, g) && Built(h, inst, blocks, g)
  {
  }

  lemma BuiltAtIsBuilt(h: Handler, inst: Element, blocks: map<nat, seq<nat>>, first: nat, g: Gadget)
    requires SteaneBlocks(blocks) && BuiltAt(h, inst, blocks, first, g)
    ensures Built(h, inst, blocks, g)
  {
  }

  /** The registers a gadget's decoder reads its outcomes from: the
      syndrome registers of a correction, the raw register of a readout. */
  function DecoderRegisters(g: Gadget): seq<nat> {
    match g.decoder
    case None => []
    case Some(d) =>
      match d
      case Correct(_, registers, _, _, _) => registers
      case Lookup(_, registers, _, _) => registers
      case Readout(raw, _, _, _, _) => [raw]
  }

  /** The number of registers the gadgets take from the counter, in all. */
  function Allocated(gadgets: seq<Gadget>): nat {
    if gadgets == [] then 0
    else Allocated(gadgets[..|gadgets| - 1]) + |DecoderRegisters(gadgets[|gadgets| - 1])|
  }

  /** A gadget with syndrome extraction reads one register per generator
      of its group, from `first` on. */
  lemma WithCorrectionRegisters(name: string, instructions: seq<Element>, qubits: seq<nat>, first: nat,
                                stabs: seq<PString>, tables: map<seq<PString>, Table>)
    requires Covers(stabs, qubits) && Group(stabs, qubits) in tables
    ensures DecoderRegisters(WithCorrection(name, instructions, qubits, first, stabs, tables, false)) ==
              Range(first, |Group(stabs, qubits)|)
  {
  }

  /** A built gadget reads consecutive registers from the counter value
      it was built at. */
  lemma BuiltAtRegisters(h: Handler, inst: Element, blocks: map<nat, seq<nat>>, first: nat, g: Gadget)
    requires SteaneBlocks(blocks) && BuiltAt(h, inst, blocks, first, g)
    ensures DecoderRegisters(g) == Range(first, |DecoderRegisters(g)|)
  {
  }

  /** The gadget of a handler acting on one block: its gates, then the
      syndrome extraction; a target without a block is a KeyError. */
  method SingleBlockGadget(h: Handler, inst: Element, ctx: Context) returns (g: Result<Gadget>)
    requires ctx.Valid() && ctx.blockSize == 7
    requires h == PrepareZeroHandler || h == HHandler || h == XHandler
    modifies ctx
    ensures ctx.Valid() && ctx.blocks == old(ctx.blocks)
    ensures g.Ok? <==> HandlerQubits(h, inst, ctx.blocks).Some?
    ensures g.Ok? ==> BuiltAt(h, inst, ctx.blocks, old(ctx.registerCount), g.value)
    ensures g.Ok? ==> ctx.registerCount == old(ctx.registerCount) + |DecoderRegisters(g.value)|
  {
    match h {
      case PrepareZeroHandler =>
        g := SteaneGadgets.PrepareZero(inst, ctx);
      case HHandler =>
        g := SteaneGadgets.ApplyH(inst, ctx);
      case XHandler =>
        g := SteaneGadgets.ApplyX(inst, ctx);
    }
    if g.Ok? {
      var q := HandlerQubits(h, inst, ctx.blocks).value;
      CorrectedGadgetBuilt(h, inst, ctx.blocks, g.value, old(ctx.registerCount), ctx.stabilizers, ctx.tables);
      WithCorrectionRegisters(GadgetName(h), HandlerGates(h, q), q, old(ctx.registerCount), ctx.stabilizers, ctx.tables);
    }
  }

  /** The gadget of `cx` over its two blocks, with the tracker update as
      written. */
  method CxGadget(inst: Element, ctx: Context) returns (g: Result<Gadget>)
    requires ctx.Valid() && ctx.blockSize == 7
    modifies ctx
    ensures ctx.Valid() && ctx.blocks == old(ctx.blocks)
    ensures HandlerQubits(CxHandler, inst, ctx.blocks).None? ==> g.Err?
    ensures HandlerQubits(CxHandler, inst, ctx.blocks).Some? ==>
              Covers(old(ctx.stabilizers), HandlerQubits(CxHandler, inst, ctx.blocks).value) &&
              (g.Ok? <==> SteaneGadgets.CxTracked(old(ctx.stabilizers), ctx.qubitCount, HandlerQubits(CxHandler, inst, ctx.blocks).value).Some?)
    ensures g.Ok? ==> BuiltAt(CxHandler, inst, ctx.blocks, old(ctx.registerCount), g.value)
    ensures g.Ok? ==> ctx.registerCount == old(ctx.registerCount) + |DecoderRegisters(g.value)|
  {
    g := SteaneGadgets.ApplyCx(inst, ctx);
    if g.Ok? {
      var q := HandlerQubits(CxHandler, inst, ctx.blocks).value;
      CorrectedGadgetBuilt(CxHandler, inst, ctx.blocks, g.value, old(ctx.registerCount), ctx.stabilizers, ctx.tables);
      WithCorrectionRegisters(CxName, HandlerGates(CxHandler, q), q, old(ctx.registerCount), ctx.stabilizers, ctx.tables);
    }
  }

  /** The handler's gadget for one instruction. A target without a block is
      a KeyError; so is, for `cx`, a tracked generator that reaches outside
      the two blocks (the tracker update as written). */
  method CompileOne(h: Handler, inst: Element, ctx: Context) returns (g: Result<Gadget>)
    requires ctx.Valid() && ctx.blockSize == 7
    modifies ctx
    ensures ctx.Valid() && ctx.blocks == old(ctx.blocks)
    ensures HandlerQubits(h, inst, ctx.blocks).None? ==> g.Err?
    ensures h != CxHandler && h != MeasureZHandler ==> (g.Ok? <==> HandlerQubits(h, inst, ctx.blocks).Some?)
    ensures h == CxHandler && HandlerQubits(h, inst, ctx.blocks).Some? ==>
              Covers(old(ctx.stabilizers), HandlerQubits(h, inst, ctx.blocks).value) &&
              (g.Ok? <==> SteaneGadgets.CxTracked(old(ctx.stabilizers), ctx.qubitCount, HandlerQubits(h, inst, ctx.blocks).value).Some?)
    ensures g.Ok? ==> BuiltAt(h, inst, ctx.blocks, old(ctx.registerCount), g.value) && Built(h, inst, ctx.blocks, g.value)
    ensures g.Ok? ==> ctx.registerCount == old(ctx.registerCount) + |DecoderRegisters(g.value)|
  {
    match h {
      case CxHandler =>
        g := CxGadget(inst, ctx);
      case MeasureZHandler =>
        g := SteaneGadgets.MeasureZ(inst, ctx);
      case _ =>
        g := SingleBlockGadget(h, inst, ctx);
    }
    if g.Ok? {
      BuiltAtIsBuilt(h, inst, ctx.blocks, old(ctx.registerCount), g.value);
    }
  }

  /** `g` is the gadget the handler of `inst`'s name builds over `blocks`. */
  ghost predicate Produced(inst: Element, blocks: map<nat, seq<nat>>, g: Gadget)
    requires SteaneBlocks(blocks)
  {
    inst.Instruction? && Dispatch(Definitions, inst.operation).Some? &&
    Built(Dispatch(Definitions, inst.operation).value, inst, blocks, g)
  }

  /** `g` is the gadget the handler of `inst`'s name builds over `blocks`
      when the register counter stands at `first`. */
  ghost predicate ProducedAt(inst: Element, blocks: map<nat, seq<nat>>, first: nat, g: Gadget)
    requires SteaneBlocks(blocks)
  {
    inst.Instruction? && Dispatch(Definitions, inst.operation).Some? &&
    BuiltAt(Dispatch(Definitions, inst.operation).value, inst, blocks, first, g)
  }

  /** One turn of the loop: the handler of the instruction's name builds its
      gadget; a name without a handler is a KeyError. */
  method CompileInstruction(inst: Element, ctx: Context) returns (g: Result<Gadget>)
    requires inst.Instruction? && ctx.Valid() && ctx.blockSize == 7
    modifies ctx
    ensures ctx.Valid() && ctx.blocks == old(ctx.blocks)
    ensures Dispatch(Definitions, inst.operation).None? ==> g.Err?
    ensures g.Ok? ==> Produced(inst, ctx.blocks, g.value)
    ensures g.Ok? ==> ProducedAt(inst, ctx.blocks, old(ctx.registerCount), g.value)
    ensures g.Ok? ==> ctx.registerCount == old(ctx.registerCount) + |DecoderRegisters(g.value)|
  {
    var handler := Dispatch(Definitions, inst.operation);
    if handler.None? {
      return Err("KeyError: " + inst.operation);
    }
    g := CompileOne(handler.value, inst, ctx);
  }

  /** When every instruction produced a gadget, every instruction name was
      known. */
  lemma EveryNameKnown(elems: seq<Element>, blocks: map<nat, seq<nat>>, gadgets: seq<Gadget>)
    requires SteaneBlocks(blocks)
    requires |gadgets| == |Instructions(elems)|
    requires forall k :: 0 <= k < |gadgets| ==> Produced(Instructions(elems)[k], blocks, gadgets[k])
    ensures forall e :: e in elems && e.Instruction? ==> Dispatch(Definitions, e.operation).Some?
  {
    var insts := Instructions(elems);
    forall e | e in elems && e.Instruction? ensures Dispatch(Definitions, e.operation).Some? {
      var j :| 0 <= j < |insts| && insts[j] == e;
      assert Produced(insts[j], blocks, gadgets[j]);
    }
  }

  /** One more produced gadget: the invariant of `compile`'s loop carried
      one step. */
  lemma ProducedSnoc(insts: seq<Element>, blocks: map<nat, seq<nat>>, gadgets: seq<Gadget>, g: Gadget)
    requires SteaneBlocks(blocks)
    requires |gadgets| < |insts| && Produced(insts[|gadgets|], blocks, g)
    requires forall j :: 0 <= j < |gadgets| ==> Produced(insts[j], blocks, gadgets[j])
    ensures forall j :: 0 <= j < |gadgets| + 1 ==> Produced(insts[j], blocks, (gadgets + [g])[j])
    ensures Circuits(gadgets + [g]) == Circuits(gadgets) + g.circuit
  {
    var longer := gadgets + [g];
    assert longer[..|gadgets|] == gadgets;
    forall j | 0 <= j < |gadgets| + 1 ensures Produced(insts[j], blocks, longer[j]) {
      if j < |gadgets| {
        assert longer[j] == gadgets[j];
      }
    }
  }

  /** The counter value each gadget is built at: gadget k starts where
      `start` plus the registers of gadgets 0 .. k-1 leave the counter. */
  function Starts(start: nat, gadgets: seq<Gadget>): (r: seq<nat>)
    ensures |r| == |gadgets|
  {
    if gadgets == [] then []
    else
      var m := |gadgets| - 1;
      Starts(start, gadgets[..m]) + [start + Allocated(gadgets[..m])]
  }

  /** Each gadget starts at the circuit's count plus what the gadgets
      before it allocated. */
  lemma {:induction false} StartsMeaning(start: nat, gadgets: seq<Gadget>)
    ensures forall k :: 0 <= k < |gadgets| ==> Starts(start, gadgets)[k] == start + Allocated(gadgets[..k])
    decreases |gadgets|
  {
    if gadgets != [] {
      var m := |gadgets| - 1;
      var before := Starts(start, gadgets[..m]);
      assert Starts(start, gadgets) == before + [start + Allocated(gadgets[..m])];
      StartsMeaning(start, gadgets[..m]);
      forall k | 0 <= k < m ensures Starts(start, gadgets)[k] == start + Allocated(gadgets[..k]) {
        assert Starts(start, gadgets)[k] == before[k];
        assert gadgets[..m][..k] == gadgets[..k];
      }
    }
  }

  /** One more gadget: it starts where the earlier ones leave the counter. */
  lemma StartsSnoc(start: nat, gadgets: seq<Gadget>, g: Gadget, f: nat)
    requires f == start + Allocated(gadgets)
    ensures Starts(start, gadgets + [g]) == Starts(start, gadgets) + [f]
    ensures Allocated(gadgets + [g]) == Allocated(gadgets) + |DecoderRegisters(g)|
  {
    assert (gadgets + [g])[..|gadgets|] == gadgets;
  }

  /** One more gadget built at its counter value: the register invariant
      of `compile`'s loop carried one step. */
  lemma ProducedAtSnoc(insts: seq<Element>, blocks: map<nat, seq<nat>>, firsts: seq<nat>, gadgets: seq<Gadget>,
                       f: nat, g: Gadget, later: seq<nat>)
    requires SteaneBlocks(blocks) && later == firsts + [f]
    requires |firsts| == |gadgets| < |insts| && ProducedAt(insts[|gadgets|], blocks, f, g)
    requires forall j :: 0 <= j < |gadgets| ==> ProducedAt(insts[j], blocks, firsts[j], gadgets[j])
    ensures forall j :: 0 <= j < |gadgets| + 1 ==> ProducedAt(insts[j], blocks, later[j], (gadgets + [g])[j])
  {
    var longer := gadgets + [g];
    forall j | 0 <= j < |gadgets| + 1 ensures ProducedAt(insts[j], blocks, later[j], longer[j]) {
      if j < |gadgets| {
        assert later[j] == firsts[j] && longer[j] == gadgets[j];
      }
    }
  }

  /** Counting one more gadget of a prefix adds its registers. */
  lemma AllocatedPrefix(gadgets: seq<Gadget>, j: nat)
    requires j < |gadgets|
    ensures Allocated(gadgets[..j + 1]) == Allocated(gadgets[..j]) + |DecoderRegisters(gadgets[j])|
  {
    assert gadgets[..j + 1][..j] == gadgets[..j];
  }

  /** A longer prefix has taken at least as many registers. */
  lemma {:induction false} AllocatedMonotone(gadgets: seq<Gadget>, j: nat, k: nat)
    requires j <= k <= |gadgets|
    ensures Allocated(gadgets[..j]) <= Allocated(gadgets[..k])
    decreases k - j
  {
    if j < k {
      AllocatedPrefix(gadgets, j);
      AllocatedMonotone(gadgets, j + 1, k);
    }
  }

  /** Gadgets that each read consecutive registers from their start read
      pairwise disjoint registers, in gadget order. */
  lemma RegistersInOrder(start: nat, gadgets: seq<Gadget>)
    requires forall k :: 0 <= k < |gadgets| ==>
               DecoderRegisters(gadgets[k]) == Range(Starts(start, gadgets)[k], |DecoderRegisters(gadgets[k])|)
    ensures forall k, i :: 0 <= k < |gadgets| && 0 <= i < |DecoderRegisters(gadgets[k])| ==>
              DecoderRegisters(gadgets[k])[i] == start + Allocated(gadgets[..k]) + i
    ensures forall j, k, a, b :: 0 <= j < k < |gadgets| && a in DecoderRegisters(gadgets[j]) && b in DecoderRegisters(gadgets[k]) ==>
              start <= a < b
  {
    StartsMeaning(start, gadgets);
    forall j, k, a, b | 0 <= j < k < |gadgets| && a in DecoderRegisters(gadgets[j]) && b in DecoderRegisters(gadgets[k])
      ensures start <= a < b
    {
      AllocatedPrefix(gadgets, j);
      AllocatedMonotone(gadgets, j + 1, k);
    }
  }

  /** The gadgets `compile` returns read fresh registers: gadget k reads
      consecutive registers from the circuit's register count plus what
      gadgets 0 .. k-1 took, so a later gadget reads only registers above
      every register of an earlier one. */
  lemma CompiledRegistersFresh(insts: seq<Element>, blocks: map<nat, seq<nat>>, start: nat, gadgets: seq<Gadget>)
    requires SteaneBlocks(blocks) && |gadgets| <= |insts|
    requires forall k :: 0 <= k < |gadgets| ==> ProducedAt(insts[k], blocks, Starts(start, gadgets)[k], gadgets[k])
    ensures forall k, i :: 0 <= k < |gadgets| && 0 <= i < |DecoderRegisters(gadgets[k])| ==>
              DecoderRegisters(gadgets[k])[i] == start + Allocated(gadgets[..k]) + i
    ensures forall j, k, a, b :: 0 <= j < k < |gadgets| && a in DecoderRegisters(gadgets[j]) && b in DecoderRegisters(gadgets[k]) ==>
              start <= a < b
  {
    var firsts := Starts(start, gadgets);
    forall k | 0 <= k < |gadgets|
      ensures DecoderRegisters(gadgets[k]) == Range(firsts[k], |DecoderRegisters(gadgets[k])|)
    {
      BuiltAtRegisters(Dispatch(Definitions, insts[k].operation).value, insts[k], blocks, firsts[k], gadgets[k]);
    }
    RegistersInOrder(start, gadgets);
  }

  /** `compile`: dispatches every instruction to its gadget, skipping the
      other elements; an unknown name is a KeyError. */
  method Compile(elems: seq<Element>, qubitCount: nat, registerCount: nat, distance: nat) returns (r: Result<Compiled>)
    ensures r.Ok? ==> r.value.qubitCount == 7 * qubitCount && r.value.registerCount == registerCount
    ensures r.Ok? ==> |r.value.gadgets| == CountInstructions(elems) && r.value.circuit == Circuits(r.value.gadgets)
    ensures r.Ok? ==> forall k :: 0 <= k < |r.value.gadgets| ==>
              Produced(Instructions(elems)[k], BlockMap(qubitCount, 7), r.value.gadgets[k])
    ensures r.Ok? ==> forall k :: 0 <= k < |r.value.gadgets| ==>
              ProducedAt(Instructions(elems)[k], BlockMap(qubitCount, 7),
                         Starts(registerCount, r.value.gadgets)[k], r.value.gadgets[k])
    ensures (exists e :: e in elems && e.Instruction? && Dispatch(Definitions, e.operation).None?) ==> r.Err?
  {
    var ctx := SteaneGadgets.NewContext(qubitCount, registerCount, distance);
    var insts := Instructions(elems);
    var blocks := BlockMap(qubitCount, 7);
    var gadgets: seq<Gadget> := [];
    var circuit: seq<Element> := [];
    var k := 0;
    while k < |insts|
      invariant 0 <= k <= |insts| && |gadgets| == k
      invariant ctx.Valid() && ctx.blockSize == 7 && ctx.qubitCount == 7 * qubitCount
      invariant ctx.blocks == blocks
      invariant circuit == Circuits(gadgets)
      invariant forall j :: 0 <= j < k ==> Produced(insts[j], blocks, gadgets[j])
      invariant ctx.registerCount == registerCount + Allocated(gadgets)
      invariant forall j :: 0 <= j < k ==> ProducedAt(insts[j], blocks, Starts(registerCount, gadgets)[j], gadgets[j])
    {
      var before := ctx.registerCount;
      var g := CompileInstruction(insts[k], ctx);
      if g.Err? {
        return Err(g.error);
      }
      ProducedSnoc(insts, blocks, gadgets, g.value);
      StartsSnoc(registerCount, gadgets, g.value, before);
      ProducedAtSnoc(insts, blocks, Starts(registerCount, gadgets), gadgets, before, g.value,
                     Starts(registerCount, gadgets + [g.value]));
      gadgets := gadgets + [g.value];
      circuit := circuit + g.value.circuit;
      k := k + 1;
    }
    EveryNameKnown(elems, blocks, gadgets);
    r := Ok(Compiled(circuit, gadgets, ctx.qubitCount, registerCount));
  }

  // ---------------------------------------------------------------------
  // The compiled decoder

  /** One gadget decoder on the shared state: a missing decoder or an index
      outside the memory or the corrections raises. */
  function RunOne(g: Gadget, s: State): Result<State> {
    match g.decoder
    case None => Err("'NoneType' object is not callable")
    case Some(d) => if Fits(d, |s.0|, |s.1|) then Step(d, s.0, s.1) else Err("list index out of range")
  }

  /** All gadget decoders, in gadget order, each once. */
  function RunAll(gadgets: seq<Gadget>, s: State): Result<State> {
    if gadgets == [] then Ok(s)
    else match RunAll(gadgets[..|gadgets| - 1], s)
      case Err(e) => Err(e)
      case Ok(t) => RunOne(gadgets[|gadgets| - 1], t)
  }

  /** The decoder's result: the first `registerCount` cells of the memory
      once every gadget decoder has run from all-identity corrections. */
  function Decoded(c: Compiled, measured: seq<Cell>): Result<seq<Cell>> {
    match RunAll(c.gadgets, (measured, Wrap(IdentityString(c.qubitCount))))
    case Err(e) => Err(e)
    case Ok(s) => Ok(s.0[..Min(c.registerCount, |s.0|)])
  }

  /** No decoder changes the length of the memory or of the corrections. */
  lemma StepKeepsLengths(d: Decoder, mem: seq<Cell>, corr: Corrections)
    requires Fits(d, |mem|, |corr|)
    ensures Step(d, mem, corr).Ok? ==> |Step(d, mem, corr).value.0| == |mem| && |Step(d, mem, corr).value.1| == |corr|
  {
    match d
    case Correct(qubits, registers, group, table, abort) =>
      var last := Gather(corr, qubits);
      if AllSome(last) && !abort {
        var cells := Gather(mem, registers);
        var m := Min(|registers|, |group|);
        if KnownPrefix(cells, m) {
          ApplyLookupLength(corr, qubits, Values(last), NewSyndrome(BitsOf(cells, m), group, Values(last)), table);
        }
      }
    case Lookup(qubits, registers, group, table) =>
      var last := Gather(corr, qubits);
      if AllSome(last) {
        var cells := Gather(mem, registers);
        var m := Min(|registers|, |group|);
        if KnownPrefix(cells, m) {
          ApplyLookupLength(corr, qubits, Values(last), NewSyndrome(BitsOf(cells, m), group, Values(last)), table);
        }
      }
    case Readout(_, _, _, _, _) =>
  }

  lemma ApplyLookupLength(corr: Corrections, qubits: seq<nat>, last: PString, syn: Syndrome, table: Table)
    requires InRange(qubits, |corr|) && |last| == |qubits|
    ensures ApplyLookup(corr, qubits, last, syn, table).Ok? ==> |ApplyLookup(corr, qubits, last, syn, table).value| == |corr|
  {
    var c := if syn in table then table[syn] else IdentityString(|qubits|);
  }

  /** The memory and the corrections keep their lengths through every
      decoder, so the result holds `min(registerCount, |measured|)` cells. */
  lemma {:induction false} RunAllKeepsLengths(gadgets: seq<Gadget>, s: State)
    ensures RunAll(gadgets, s).Ok? ==> |RunAll(gadgets, s).value.0| == |s.0| && |RunAll(gadgets, s).value.1| == |s.1|
    decreases |gadgets|
  {
    if gadgets != [] {
      var m := |gadgets| - 1;
      RunAllKeepsLengths(gadgets[..m], s);
      if RunAll(gadgets[..m], s).Ok? {
        var t := RunAll(gadgets[..m], s).value;
        if gadgets[m].decoder.Some? && Fits(gadgets[m].decoder.value, |t.0|, |t.1|) {
          StepKeepsLengths(gadgets[m].decoder.value, t.0, t.1);
        }
      }
    }
  }

  lemma DecodedLength(c: Compiled, measured: seq<Cell>)
    ensures Decoded(c, measured).Ok? ==> |Decoded(c, measured).value| == Min(c.registerCount, |measured|)
  {
    RunAllKeepsLengths(c.gadgets, (measured, Wrap(IdentityString(c.qubitCount))));
  }

  /** Calls one gadget's decoder on the shared arrays. */
  method RunGadget(g: Gadget, memory: array<Cell>, corrections: array<Option<Pauli>>) returns (ok: bool)
    modifies memory, corrections
    ensures ok <==> RunOne(g, (old(memory[..]), old(corrections[..]))).Ok?
    ensures ok ==> RunOne(g, (old(memory[..]), old(corrections[..]))).value == (memory[..], corrections[..])
  {
    if g.decoder.None? || !Fits(g.decoder.value, memory.Length, corrections.Length) {
      return false;
    }
    ok := RunDecoder(g.decoder.value, memory, corrections);
  }

  /** `steane_code_decoder`: the gadget decoders run in place on one
      memory array and one correction array. */
  method Decode(c: Compiled, measured: seq<Cell>) returns (r: Result<seq<Cell>>)
    ensures r.Ok? <==> Decoded(c, measured).Ok?
    ensures r.Ok? ==> r.value == Decoded(c, measured).value
  {
    var memory := new Cell[|measured|](i requires 0 <= i < |measured| => measured[i]);
    var corrections := new Option<Pauli>[c.qubitCount](_ => Some(I));
    ghost var start := (measured, Wrap(IdentityString(c.qubitCount)));
    assert memory[..] == start.0;
    assert corrections[..] == start.1;
    var k := 0;
    while k < |c.gadgets|
      invariant 0 <= k <= |c.gadgets|
      invariant RunAll(c.gadgets[..k], start) == Ok((memory[..], corrections[..]))
    {
      ghost var before := (memory[..], corrections[..]);
      var ok := RunGadget(c.gadgets[k], memory, corrections);
      RunAllSnoc(c.gadgets, k, start, before);
      if !ok {
        RunAllFailureStays(c.gadgets, k + 1, start);
        return Err("the decoder of gadget " + c.gadgets[k].name + " failed");
      }
      k := k + 1;
    }
    assert c.gadgets[..k] == c.gadgets;
    r := Ok(memory[..Min(c.registerCount, memory.Length)]);
  }

  lemma RunAllSnoc(gadgets: seq<Gadget>, k: nat, s: State, t: State)
    requires k < |gadgets| && RunAll(gadgets[..k], s) == Ok(t)
    ensures RunAll(gadgets[..k + 1], s) == RunOne(gadgets[k], t)
  {
    assert gadgets[..k + 1][..k] == gadgets[..k];
  }

  /** Once a decoder has raised, the whole decoder raises. */
  lemma {:induction false} RunAllFailureStays(gadgets: seq<Gadget>, k: nat, s: State)
    requires k <= |gadgets| && RunAll(gadgets[..k], s).Err?
    ensures RunAll(gadgets, s).Err?
    decreases |gadgets| - k
  {
    if k < |gadgets| {
      assert gadgets[..k + 1][..k] == gadgets[..k];
      RunAllFailureStays(gadgets, k + 1, s);
    } else {
      assert gadgets[..k] == gadgets;
    }
  }
}
