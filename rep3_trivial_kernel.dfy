/** The kernel-level trivial repetition compiler: every logical qubit
    becomes the three physical qubits "t.0" .. "t.2", X and H act on each of
    them, and a majority vote decodes the three measurements. */
module Rep3TrivialKernel {
  import opened Wrappers
  import opened Ast
  import opened KernelGates
  import opened ClassicProcessing

  const HandlerNames := {XGate, HGate}

  /** `handle_x`, `handle_h`: the gate on each of the three physical qubits
      of the first target; with no target, an IndexError. */
  function HandleTransversal(gate: string, inst: QuantumInstruction): (r: Result<Kernel>)
    ensures r.Ok? <==> |inst.targets| >= 1
    ensures r.Ok? ==>
              r.value.target.None? && r.value.callback.None? && Flat(r.value.instructions) &&
              r.value.instructions == OnEach(gate, inst.targets[0], 3)
  {
    if |inst.targets| == 0 then Err("IndexError: tuple index out of range")
    else Ok(Kernel(None, OnEach(gate, inst.targets[0], 3), None))
  }

  /** The handler table: a name without a handler is a KeyError. */
  function Handle(inst: QuantumInstruction): (r: Result<Kernel>)
    ensures inst.name !in HandlerNames ==> r.Err?
    ensures inst.name in HandlerNames ==> r == HandleTransversal(inst.name, inst)
  {
    if inst.name == XGate then HandleTransversal(XGate, inst)
    else if inst.name == HGate then HandleTransversal(HGate, inst)
    else Err("KeyError: " + inst.name)
  }

  /** The classical instruction `Decode()`. */
  const DecodeCall := ClassicInstruction("decode", map[])

  /** The bit `decode` collects for three outcomes. */
  function Majority(m0: int, m1: int, m2: int): int {
    if m0 + m1 + m2 > 1 then 1 else 0
  }

  /** On bits, the vote is one exactly when at least two of the three are
      one, and it undoes any single flip of a repeated bit. */
  lemma MajorityVotes(m0: int, m1: int, m2: int)
    requires m0 in {0, 1} && m1 in {0, 1} && m2 in {0, 1}
    ensures Majority(m0, m1, m2) == 1 <==> (m0 == 1 && m1 == 1) || (m0 == 1 && m2 == 1) || (m1 == 1 && m2 == 1)
    ensures Majority(m0, m1, m2) == Majority(m2, m1, m0) == Majority(m1, m0, m2)
  {
  }

  /** A repeated bit with at most one of its copies flipped decodes to that
      bit. */
  lemma MajorityCorrectsOneFlip(b: int, flips: seq<bool>)
    requires b in {0, 1} && |flips| == 3
    requires forall i, j :: 0 <= i < j < 3 ==> !(flips[i] && flips[j])
    ensures var m := seq(3, i requires 0 <= i < 3 => if flips[i] then 1 - b else b);
            Majority(m[0], m[1], m[2]) == b
  {
    assert !(flips[0] && flips[1]) && !(flips[0] && flips[2]) && !(flips[1] && flips[2]);
  }

  /** `decode`: pop three outcomes and collect their majority; with fewer
      than three the sum meets a `None` and raises a TypeError after the
      stack has been emptied. */
  method Decode(cpu: ClassicProcessor) returns (ok: bool)
    requires cpu.restarted
    modifies cpu
    ensures cpu.restarted
    ensures ok <==> |old(cpu.measurements)| >= 3
    ensures ok ==>
              var m := Latest(old(cpu.measurements), 3);
              cpu.measurements == Remaining(old(cpu.measurements), 3) + [Majority(m[0], m[1], m[2])]
    ensures !ok ==> cpu.measurements == []
  {
    ghost var before := cpu.measurements;
    var m := ConsumeMany(cpu, 3);
    if m[0].None? || m[1].None? || m[2].None? {
      return false;
    }
    if m[0].value + m[1].value + m[2].value > 1 {
      cpu.Collect(1);
    } else {
      cpu.Collect(0);
    }
    ok := true;
  }

  /** What instruction `i` of `k` compiles to: a nested kernel is compiled
      recursively, a gate goes through its handler, and a classical
      instruction has no handler (a KeyError, or an AttributeError when its
      name is a gate's). */
  function CompiledNode(cc: CallbackCompiler, k: Kernel, i: nat): Result<Node>
    requires i < |k.instructions|
    decreases k, 0
  {
    match k.instructions[i]
    case Nested(sub) =>
      (match CompiledKernel(cc, sub)
       case Ok(c) => Ok(Nested(c))
       case Err(e) => Err(e))
    case Quantum(q) =>
      (match Handle(q)
       case Ok(h) => Ok(Nested(h))
       case Err(e) => Err(e))
    case Classic(c) =>
      Err(if c.name in HandlerNames then "AttributeError: no targets" else "KeyError: " + c.name)
  }

  /** The compiled forms of the first `n` instructions, or the error of the
      first one that fails. */
  function CompiledNodes(cc: CallbackCompiler, k: Kernel, n: nat): Result<seq<Node>>
    requires n <= |k.instructions|
    decreases k, 1, n
  {
    if n == 0 then Ok([])
    else
      match CompiledNodes(cc, k, n - 1)
      case Err(e) => Err(e)
      case Ok(done) =>
        (match CompiledNode(cc, k, n - 1)
         case Ok(p) => Ok(done + [p])
         case Err(e) => Err(e))
  }

  /** `compile_kernel`: a kernel with a target becomes the chain allocating
      its three physical qubits around the compiled instructions, with the
      decoding callback, itself wrapped in a kernel carrying the compiled
      callback when there is one; a kernel without a target keeps its
      shape. */
  function CompiledKernel(cc: CallbackCompiler, k: Kernel): Result<Kernel>
    decreases k, 2
  {
    match CompiledNodes(cc, k, |k.instructions|)
    case Err(e) => Err(e)
    case Ok(body) => Ok(Assembled(cc, k, body))
  }

  /** The kernel `compile_kernel` builds around its list of instructions. */
  function Assembled(cc: CallbackCompiler, k: Kernel, instructions: seq<Node>): Kernel {
    if k.target.Some? then
      var inner := Allocated(PhysicalNames(k.target.value, 3), instructions, Some(DecodeCall));
      var final := cc(k.callback);
      if final.Some? then Kernel(None, [Nested(inner)], final) else inner
    else Kernel(None, instructions, cc(k.callback))
  }

  lemma CompiledNodesStep(cc: CallbackCompiler, k: Kernel, i: nat)
    requires i < |k.instructions| && CompiledNodes(cc, k, i).Ok?
    ensures CompiledNode(cc, k, i).Ok? ==> CompiledNodes(cc, k, i + 1) == Ok(CompiledNodes(cc, k, i).value + [CompiledNode(cc, k, i).value])
    ensures CompiledNode(cc, k, i).Err? ==> CompiledNodes(cc, k, i + 1) == Err(CompiledNode(cc, k, i).error)
  {
  }

  lemma {:induction false} CompiledNodesErrorStays(cc: CallbackCompiler, k: Kernel, i: nat, n: nat)
    requires i <= n <= |k.instructions| && CompiledNodes(cc, k, i).Err?
    ensures CompiledNodes(cc, k, n) == CompiledNodes(cc, k, i)
    decreases n
  {
    if n > i {
      CompiledNodesErrorStays(cc, k, i, n - 1);
    }
  }

  /** `TrivialRepetitionCompiler.compile_kernel`. */
  method CompileKernel(cc: CallbackCompiler, k: Kernel) returns (r: Result<Kernel>)
    ensures r == CompiledKernel(cc, k)
    decreases k, 1
  {
    var instructions: seq<Node> := [];
    var i := 0;
    while i < |k.instructions|
      invariant 0 <= i <= |k.instructions|
      invariant CompiledNodes(cc, k, i) == Ok(instructions)
    {
      var p := CompileInstruction(cc, k, i);
      CompiledNodesStep(cc, k, i);
      if p.Err? {
        CompiledNodesErrorStays(cc, k, i + 1, |k.instructions|);
        return Err(p.error);
      }
      instructions := instructions + [p.value];
      i := i + 1;
    }
    var compiled := Assemble(cc, k, instructions);
    r := Ok(compiled);
  }

  /** One turn of `compile_kernel`'s loop. */
  method CompileInstruction(cc: CallbackCompiler, k: Kernel, i: nat) returns (p: Result<Node>)
    requires i < |k.instructions|
    ensures p == CompiledNode(cc, k, i)
    decreases k, 0
  {
    match k.instructions[i] {
      case Nested(sub) =>
        var c := CompileKernel(cc, sub);
        if c.Err? {
          return Err(c.error);
        }
        p := Ok(Nested(c.value));
      case Quantum(q) =>
        var h := Handle(q);
        if h.Err? {
          return Err(h.error);
        }
        p := Ok(Nested(h.value));
      case Classic(c) =>
        p := Err(if c.name in HandlerNames then "AttributeError: no targets" else "KeyError: " + c.name);
    }
  }

  /** The end of `compile_kernel`: allocation and callbacks. */
  method Assemble(cc: CallbackCompiler, k: Kernel, instructions: seq<Node>) returns (r: Kernel)
    ensures r == Assembled(cc, k, instructions)
  {
    if k.target.Some? {
      var inner := Allocate(PhysicalNames(k.target.value, 3), instructions, Some(DecodeCall));
      var final := cc(k.callback);
      if final.Some? {
        return Kernel(None, [Nested(inner)], final);
      }
      return inner;
    }
    r := Kernel(None, instructions, cc(k.callback));
  }

  /** Each instruction compiles to exactly one node, in order: a gate to its
      handler's kernel, a nested kernel to its compiled form. */
  lemma {:induction false} OneNodePerInstruction(cc: CallbackCompiler, k: Kernel, n: nat)
    requires n <= |k.instructions| && CompiledNodes(cc, k, n).Ok?
    ensures |CompiledNodes(cc, k, n).value| == n
    ensures forall i :: 0 <= i < n && k.instructions[i].Quantum? ==>
              Handle(k.instructions[i].q).Ok? && CompiledNodes(cc, k, n).value[i] == Nested(Handle(k.instructions[i].q).value)
    ensures forall i :: 0 <= i < n && k.instructions[i].Nested? ==>
              CompiledKernel(cc, k.instructions[i].kernel).Ok? &&
              CompiledNodes(cc, k, n).value[i] == Nested(CompiledKernel(cc, k.instructions[i].kernel).value)
    ensures forall i :: 0 <= i < n ==> !k.instructions[i].Classic?
  {
    if n > 0 {
      OneNodePerInstruction(cc, k, n - 1);
    }
  }

  /** A handled gate succeeds exactly when it has a target, and its three
      physical gates act on three different qubits. */
  lemma TransversalGatesAreDisjoint(inst: QuantumInstruction)
    ensures Handle(inst).Ok? <==> inst.name in HandlerNames && |inst.targets| >= 1
    ensures Handle(inst).Ok? ==>
              |Handle(inst).value.instructions| == 3 &&
              forall i, j :: 0 <= i < j < 3 ==>
                Handle(inst).value.instructions[i].q.targets != Handle(inst).value.instructions[j].q.targets
  {
    if Handle(inst).Ok? {
      OnEachDistinct(inst.name, inst.targets[0], 3);
    }
  }

  /** A classical instruction, or a gate without a handler, anywhere in the
      kernel makes its compilation fail. */
  lemma UnhandledInstructionFails(cc: CallbackCompiler, k: Kernel, i: nat)
    requires i < |k.instructions|
    requires k.instructions[i].Classic? || (k.instructions[i].Quantum? && k.instructions[i].q.name !in HandlerNames)
    ensures CompiledKernel(cc, k).Err?
  {
    if CompiledNodes(cc, k, i).Err? {
      CompiledNodesErrorStays(cc, k, i, |k.instructions|);
    } else {
      assert CompiledNode(cc, k, i).Err?;
      CompiledNodesStep(cc, k, i);
      CompiledNodesErrorStays(cc, k, i + 1, |k.instructions|);
    }
    assert CompiledNodes(cc, k, |k.instructions|).Err?;
  }

  /** A compiled kernel with a target allocates its three physical qubits
      "t.0" .. "t.2" one level each, with the decoding callback on the
      outermost of them only and the compiled instructions innermost, and
      the compiled callback, if any, on a kernel around them. */
  lemma CompiledShape(cc: CallbackCompiler, k: Kernel)
    requires CompiledKernel(cc, k).Ok? && k.target.Some?
    ensures var r := CompiledKernel(cc, k).value;
            cc(k.callback).Some? ==>
              r.target.None? && r.callback == cc(k.callback) && |r.instructions| == 1 && r.instructions[0].Nested?
    ensures var r := CompiledKernel(cc, k).value;
            var inner := if cc(k.callback).Some? then r.instructions[0].kernel else r;
            inner.callback == Some(DecodeCall) &&
            (forall i :: 0 <= i < 3 ==> Level(inner, i).target == Some(Physical(k.target.value, i))) &&
            (forall i :: 1 <= i < 3 ==> Level(inner, i).callback.None?) &&
            Level(inner, 2).instructions == CompiledNodes(cc, k, |k.instructions|).value
  {
    var t := k.target.value;
    var names := PhysicalNames(t, 3);
    var body := CompiledNodes(cc, k, |k.instructions|).value;
    var chain := Chain(names, body);
    var inner := Allocated(names, body, Some(DecodeCall));
    assert inner == WithCallback(chain, Some(DecodeCall));
    ChainLevels(names, body, 0);
    forall i | 0 <= i < 3
      ensures Level(inner, i).target == Some(Physical(t, i))
      ensures 1 <= i ==> Level(inner, i).callback.None?
    {
      ChainLevels(names, body, i);
    }
    ChainLevels(names, body, 2);
  }
}
