/** The kernel tree the kernel-level compilers work on: a kernel may
    allocate one target qubit, holds quantum instructions, classical
    instructions and nested kernels, and may end with a classical callback. */
module Ast {
  import opened Wrappers

  datatype QubitId = QubitId(value: string)

  /** What `QubitId.wrap` accepts: an id already, or anything else, which
      here is a name. */
  datatype IdArg = Id(id: QubitId) | Name(name: string)

  /** A parameter value; complex and floating-point values are not part of
      this model. */
  datatype ParamValue = IntValue(i: int) | TextValue(text: string) | QubitValue(qubit: QubitId)

  datatype QuantumInstruction = QuantumInstruction(name: string, targets: seq<QubitId>, parameters: map<string, ParamValue>)

  datatype ClassicInstruction = ClassicInstruction(name: string, parameters: map<string, ParamValue>)

  /** An entry of a kernel's instruction tuple. */
  datatype Node = Quantum(q: QuantumInstruction) | Classic(c: ClassicInstruction) | Nested(kernel: Kernel)

  /** `Kernel`; a target or a callback is present exactly when it is not
      `None` (both are always truthy when present). */
  datatype Kernel = Kernel(target: Option<QubitId>, instructions: seq<Node>, callback: Option<ClassicInstruction>)

  /** `QubitId.wrap`: an id is returned unchanged, anything else becomes
      the id it names; so wrapping twice is wrapping once. */
  function Wrap(a: IdArg): (r: QubitId)
    ensures a.Id? ==> r == a.id
    ensures a.Name? ==> r.value == a.name
  {
    match a
    case Id(id) => id
    case Name(n) => QubitId(n)
  }

  /** Wrapping an id that `wrap` returned gives it back, and different
      names are wrapped to different ids. */
  lemma WrapIdempotent(a: IdArg, b: IdArg)
    ensures Wrap(Id(Wrap(a))) == Wrap(a)
    ensures a.Name? && b.Name? ==> (Wrap(a) == Wrap(b) <==> a.name == b.name)
    ensures Wrap(a) == Wrap(Name(Wrap(a).value))
  {
  }

  function Max(a: nat, b: nat): nat { if a >= b then a else b }

  /** `depth`: one for an allocated target, plus the deepest nested
      kernel (none counts as zero). */
  function Depth(k: Kernel): nat
    decreases k, 1
  {
    (if k.target.Some? then 1 else 0) + SubDepth(k, |k.instructions|)
  }

  /** The deepest kernel among the first `n` instructions of `k`, zero
      when there is none. */
  function SubDepth(k: Kernel, n: nat): nat
    requires n <= |k.instructions|
    decreases k, 0, n
  {
    if n == 0 then 0
    else
      var node := k.instructions[n - 1];
      Max(SubDepth(k, n - 1), if node.Nested? then Depth(node.kernel) else 0)
  }

  /** No node is a kernel. */
  predicate Flat(ns: seq<Node>) {
    forall i :: 0 <= i < |ns| ==> !ns[i].Nested?
  }

  lemma {:induction false} FlatSubDepth(k: Kernel, n: nat)
    requires n <= |k.instructions| && Flat(k.instructions)
    ensures SubDepth(k, n) == 0
  {
    if n > 0 {
      FlatSubDepth(k, n - 1);
    }
  }

  /** The sub-kernel depth bounds every nested kernel's depth and is
      reached by one of them when it is positive. */
  lemma {:induction false} SubDepthIsMax(k: Kernel, n: nat)
    requires n <= |k.instructions|
    ensures forall i :: 0 <= i < n && k.instructions[i].Nested? ==> Depth(k.instructions[i].kernel) <= SubDepth(k, n)
    ensures SubDepth(k, n) > 0 ==>
              exists i :: 0 <= i < n && k.instructions[i].Nested? && Depth(k.instructions[i].kernel) == SubDepth(k, n)
  {
    if n > 0 {
      SubDepthIsMax(k, n - 1);
    }
  }

  /** The sub-kernel depth depends on the instructions only. */
  lemma {:induction false} SubDepthOfInstructions(k: Kernel, k': Kernel, n: nat)
    requires k.instructions == k'.instructions && n <= |k.instructions|
    ensures SubDepth(k, n) == SubDepth(k', n)
  {
    if n > 0 {
      SubDepthOfInstructions(k, k', n - 1);
    }
  }

  /** `Kernel.empty()`. */
  function Empty(): (r: Kernel)
    ensures r.target.None? && r.instructions == [] && r.callback.None? && Depth(r) == 0
  {
    Kernel(None, [], None)
  }

  /** `Kernel.continue_with(cb)`: nothing to run but the callback. */
  function ContinueWith(cb: ClassicInstruction): (r: Kernel)
    ensures r.target.None? && r.instructions == [] && r.callback == Some(cb) && Depth(r) == 0
  {
    Kernel(None, [], Some(cb))
  }

  /** The chain `allocate` builds for targets t0 .. tn-1 before the
      callback: a kernel allocating t0 whose only instruction is the chain
      for t1 .. tn-1, down to the kernel allocating tn-1 that holds the
      instructions. */
  function Chain(targets: seq<IdArg>, instructions: seq<Node>): Kernel
    requires |targets| >= 1
    decreases |targets|
  {
    if |targets| == 1 then Kernel(Some(Wrap(targets[0])), instructions, None)
    else Kernel(Some(Wrap(targets[0])), [Nested(Chain(targets[1..], instructions))], None)
  }

  /** The callback, when given, on the outermost kernel. */
  function WithCallback(k: Kernel, callback: Option<ClassicInstruction>): Kernel {
    if callback.Some? then Kernel(k.target, k.instructions, callback) else k
  }

  /** What `Kernel.allocate(*targets, instructions=, callback=)` returns. */
  function Allocated(targets: seq<IdArg>, instructions: seq<Node>, callback: Option<ClassicInstruction>): Kernel {
    if |targets| == 0 then Kernel(None, instructions, callback)
    else if |targets| == 1 then Kernel(Some(Wrap(targets[0])), instructions, callback)
    else WithCallback(Chain(targets, instructions), callback)
  }

  /** The kernel reached by descending `k` times through the only
      instruction. */
  function Level(c: Kernel, k: nat): Kernel
    decreases k
  {
    if k == 0 || |c.instructions| != 1 || !c.instructions[0].Nested? then c
    else Level(c.instructions[0].kernel, k - 1)
  }

  /** Level `k` of the chain allocates `targets[k]`; every level above the
      last holds exactly the next one and no callback; the last holds the
      instructions. */
  lemma {:induction false} ChainLevels(targets: seq<IdArg>, instructions: seq<Node>, k: nat)
    requires |targets| >= 1 && k < |targets|
    ensures Level(Chain(targets, instructions), k).target == Some(Wrap(targets[k]))
    ensures Level(Chain(targets, instructions), k).callback.None?
    ensures k < |targets| - 1 ==>
              Level(Chain(targets, instructions), k).instructions == [Nested(Level(Chain(targets, instructions), k + 1))]
    ensures k == |targets| - 1 ==> Level(Chain(targets, instructions), k).instructions == instructions
    decreases k
  {
    if k > 0 {
      ChainLevels(targets[1..], instructions, k - 1);
      assert targets[1..][k - 1] == targets[k];
    }
  }

  /** Over instructions without nested kernels, the chain for `n` targets
      has depth `n`. */
  lemma {:induction false} ChainDepth(targets: seq<IdArg>, instructions: seq<Node>)
    requires |targets| >= 1 && Flat(instructions)
    ensures Depth(Chain(targets, instructions)) == |targets|
    decreases |targets|
  {
    if |targets| == 1 {
      FlatSubDepth(Chain(targets, instructions), |instructions|);
    } else {
      ChainDepth(targets[1..], instructions);
      var c := Chain(targets, instructions);
      assert c.instructions[0] == Nested(Chain(targets[1..], instructions));
      assert SubDepth(c, 1) == Depth(Chain(targets[1..], instructions));
    }
  }

  /** `allocate` over plain instructions: the depth is the number of
      targets, and the callback sits only on the outermost kernel. */
  lemma AllocatedShape(targets: seq<IdArg>, instructions: seq<Node>, callback: Option<ClassicInstruction>)
    requires Flat(instructions)
    ensures Depth(Allocated(targets, instructions, callback)) == |targets|
    ensures Allocated(targets, instructions, callback).callback == callback
    ensures |targets| == 0 ==> Allocated(targets, instructions, callback).instructions == instructions
    ensures |targets| >= 1 ==> Allocated(targets, instructions, callback).target == Some(Wrap(targets[0]))
    ensures |targets| >= 2 ==> forall k :: 1 <= k < |targets| ==>
              Level(Allocated(targets, instructions, callback), k).callback.None?
  {
    if |targets| <= 1 {
      FlatSubDepth(Allocated(targets, instructions, callback), |instructions|);
    } else {
      ChainDepth(targets, instructions);
      var c := Chain(targets, instructions);
      SubDepthOfInstructions(c, Allocated(targets, instructions, callback), |c.instructions|);
      ChainLevels(targets, instructions, 0);
      forall k | 1 <= k < |targets|
        ensures Level(Allocated(targets, instructions, callback), k).callback.None?
      {
        ChainLevels(targets, instructions, k);
        assert Level(Allocated(targets, instructions, callback), k) == Level(c, k);
      }
    }
  }

  /** `Kernel.allocate`: the chain is built from the innermost kernel
      outwards, then the callback is put on the outermost one. */
  method Allocate(targets: seq<IdArg>, instructions: seq<Node>, callback: Option<ClassicInstruction>) returns (k: Kernel)
    ensures k == Allocated(targets, instructions, callback)
  {
    if |targets| == 0 {
      return Kernel(None, instructions, callback);
    } else if |targets| == 1 {
      return Kernel(Some(Wrap(targets[0])), instructions, callback);
    }
    var n := |targets|;
    var innermost := Kernel(Some(Wrap(targets[n - 1])), instructions, None);
    var i := n - 1;
    while i > 0
      invariant 0 <= i <= n - 1
      invariant innermost == Chain(targets[i..], instructions)
    {
      i := i - 1;
      assert targets[i..][1..] == targets[i + 1..];
      innermost := Kernel(Some(Wrap(targets[i])), [Nested(innermost)], None);
    }
    assert targets[0..] == targets;
    if callback.Some? {
      return Kernel(innermost.target, innermost.instructions, callback);
    }
    k := innermost;
  }
}
