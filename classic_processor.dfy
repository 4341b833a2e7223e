/** The classical co-processor the kernel-level compilers' callbacks run
    on: a last-in first-out stack of measurement outcomes. */
module ClassicProcessing {
  import opened Wrappers
  import opened Ast

  /** A measurement outcome. */
  type Outcome = int

  /** `ClassicProcessor`. The stack exists only once `restart` has run:
      before that, `collect` and `consume` raise, so they require it. */
  class ClassicProcessor {
    const operations: set<ClassicInstruction>
    var measurements: seq<Outcome>
    var restarted: bool

    constructor(instructions: set<ClassicInstruction>)
      ensures operations == instructions && !restarted
    {
      operations := instructions;
      measurements := [];
      restarted := false;
    }

    /** `restart`: an empty stack. */
    method Restart()
      modifies this
      ensures restarted && measurements == []
    {
      measurements := [];
      restarted := true;
    }

    /** `collect`: push the outcome. */
    method Collect(result: Outcome)
      requires restarted
      modifies this
      ensures restarted && measurements == old(measurements) + [result]
    {
      measurements := measurements + [result];
    }

    /** `consume`: pop the latest outcome; on an empty stack nothing is
      returned and the stack stays empty. */
    method Consume() returns (r: Option<Outcome>)
      requires restarted
      modifies this
      ensures restarted
      ensures old(measurements) == [] ==> r.None? && measurements == []
      ensures old(measurements) != [] ==>
                r == Some(old(measurements)[|old(measurements)| - 1]) && measurements == old(measurements)[..|old(measurements)| - 1]
    {
      if |measurements| > 0 {
        r := Some(measurements[|measurements| - 1]);
        measurements := measurements[..|measurements| - 1];
      } else {
        r := None;
      }
    }

    /** `eval`: every classical instruction continues with the empty
      kernel, and the stack is not touched. */
    method Eval(instruction: ClassicInstruction) returns (k: Kernel)
      ensures k == Empty()
    {
      k := Empty();
    }
  }

  /** `collect(v)` then `consume()` gives back `v` and leaves the stack as
      it was. */
  method CollectThenConsume(cpu: ClassicProcessor, v: Outcome) returns (r: Option<Outcome>)
    requires cpu.restarted
    modifies cpu
    ensures r == Some(v) && cpu.measurements == old(cpu.measurements) && cpu.restarted
  {
    cpu.Collect(v);
    r := cpu.Consume();
    assert (old(cpu.measurements) + [v])[..|old(cpu.measurements)|] == old(cpu.measurements);
  }

  /** The outcomes `n` calls of `consume` return on the stack `m`: the
      latest first, and none once the stack is empty. */
  function Popped(m: seq<Outcome>, n: nat): (r: seq<Option<Outcome>>)
    ensures |r| == n
    ensures forall i :: 0 <= i < n ==> (r[i].Some? <==> i < |m|) && (i < |m| ==> r[i].value == m[|m| - 1 - i])
  {
    seq(n, i requires 0 <= i < n => if i < |m| then Some(m[|m| - 1 - i]) else None)
  }

  /** The stack left after `n` calls of `consume`. */
  function Remaining(m: seq<Outcome>, n: nat): (r: seq<Outcome>)
    ensures |r| == if n >= |m| then 0 else |m| - n
    ensures r == m[..|r|]
  {
    if n >= |m| then [] else m[..|m| - n]
  }

  /** Last in, first out: the outcome collected last is consumed first,
      and the calls after it see the older stack; an empty stack gives
      only `None`. */
  lemma PoppedLastFirst(m: seq<Outcome>, o: Outcome, n: nat)
    ensures Popped(m + [o], n + 1) == [Some(o)] + Popped(m, n)
    ensures Remaining(m + [o], n + 1) == Remaining(m, n)
    ensures forall i :: 0 <= i < n ==> Popped([], n)[i].None?
  {
    var l, r := Popped(m + [o], n + 1), [Some(o)] + Popped(m, n);
    forall i | 0 <= i < n + 1 ensures l[i] == r[i] {
      if 0 < i <= |m| {
        assert (m + [o])[|m| - i] == m[|m| - 1 - (i - 1)];
      }
    }
  }

  /** `n` calls of `consume` in a row, their results in call order. */
  method ConsumeMany(cpu: ClassicProcessor, n: nat) returns (r: seq<Option<Outcome>>)
    requires cpu.restarted
    modifies cpu
    ensures cpu.restarted && r == Popped(old(cpu.measurements), n) && cpu.measurements == Remaining(old(cpu.measurements), n)
  {
    ghost var m := cpu.measurements;
    r := [];
    var i := 0;
    while i < n
      invariant 0 <= i <= n && cpu.restarted
      invariant r == Popped(m, i) && cpu.measurements == Remaining(m, i)
    {
      var o := cpu.Consume();
      if i < |m| {
        assert o == Some(m[|m| - 1 - i]);
        assert cpu.measurements == m[..|m| - i][..|m| - i - 1];
      }
      r := r + [o];
      i := i + 1;
      assert r == Popped(m, i);
    }
  }

  /** The `n` latest outcomes, latest first. */
  function Latest(m: seq<Outcome>, n: nat): seq<Outcome>
    requires n <= |m|
  {
    seq(n, i requires 0 <= i < n => m[|m| - 1 - i])
  }
}
