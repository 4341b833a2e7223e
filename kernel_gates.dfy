/** The gates and qubit names the kernel-level compilers emit: physical
    qubit `i` of logical qubit `t` is named "t.i", and every gate is a
    parameterless quantum instruction on named qubits. */
module KernelGates {
  import opened Wrappers
  import opened Ast

  const XGate := "x"
  const ZGate := "z"
  const HGate := "h"
  const CxGate := "cx"
  /** Between a logical qubit's name and a physical index. */
  const Separator := "."

  /** The decimal digit of `i`. */
  function Digit(i: nat): string
    requires i < 10
  {
    [(48 + i) as char]
  }

  /** The name "t.i" of physical qubit `i` of `t`, as the f-string writes
      it. */
  function PhysicalName(t: QubitId, i: nat): string
    requires i < 10
  {
    t.value + Separator + Digit(i)
  }

  function Physical(t: QubitId, i: nat): QubitId
    requires i < 10
  {
    QubitId(PhysicalName(t, i))
  }

  /** Different indices name different physical qubits. */
  lemma PhysicalDistinct(t: QubitId, i: nat, j: nat)
    requires i < 10 && j < 10 && i != j
    ensures Physical(t, i) != Physical(t, j)
  {
    assert PhysicalName(t, i)[|t.value| + 1] == (48 + i) as char;
    assert PhysicalName(t, j)[|t.value| + 1] == (48 + j) as char;
  }

  /** The names "t.0" .. "t.(n-1)", as `allocate` receives them. */
  function PhysicalNames(t: QubitId, n: nat): (r: seq<IdArg>)
    requires n <= 10
    ensures |r| == n && forall i :: 0 <= i < n ==> r[i] == Name(PhysicalName(t, i)) && Wrap(r[i]) == Physical(t, i)
  {
    seq(n, i requires 0 <= i < n => Name(PhysicalName(t, i)))
  }

  /** The names passed to `allocate` wrap to different qubits, qubit `i`
      being "t.i". */
  lemma PhysicalNamesDistinct(t: QubitId, n: nat)
    requires n <= 10
    ensures forall i :: 0 <= i < n ==> Wrap(PhysicalNames(t, n)[i]) == Physical(t, i)
    ensures forall i, j :: 0 <= i < j < n ==> Wrap(PhysicalNames(t, n)[i]) != Wrap(PhysicalNames(t, n)[j])
  {
    forall i, j | 0 <= i < j < n
      ensures Wrap(PhysicalNames(t, n)[i]) != Wrap(PhysicalNames(t, n)[j])
    {
      PhysicalDistinct(t, i, j);
    }
  }

  /** A gate built by calling an instruction definition: its name, the
      wrapped targets, no parameters. */
  function Gate(name: string, qubits: seq<QubitId>): Node {
    Quantum(QuantumInstruction(name, qubits, map[]))
  }

  /** The same one-qubit gate on "t.0" .. "t.(n-1)". */
  function OnEach(name: string, t: QubitId, n: nat): (r: seq<Node>)
    requires n <= 10
    ensures |r| == n && forall i :: 0 <= i < n ==> r[i] == Gate(name, [Physical(t, i)])
  {
    seq(n, i requires 0 <= i < n => Gate(name, [Physical(t, i)]))
  }

  /** The gates of `OnEach` act on pairwise different qubits. */
  lemma OnEachDistinct(name: string, t: QubitId, n: nat)
    requires n <= 10
    ensures forall i, j :: 0 <= i < j < n ==> OnEach(name, t, n)[i].q.targets != OnEach(name, t, n)[j].q.targets
  {
    forall i, j | 0 <= i < j < n
      ensures OnEach(name, t, n)[i].q.targets != OnEach(name, t, n)[j].q.targets
    {
      PhysicalDistinct(t, i, j);
      assert OnEach(name, t, n)[i].q.targets[0] != OnEach(name, t, n)[j].q.targets[0];
    }
  }

  /** `compile_callback`, which the compiler base does not define: taken as
      any map from a kernel's callback to the compiled one. */
  type CallbackCompiler = Option<ClassicInstruction> -> Option<ClassicInstruction>
}
