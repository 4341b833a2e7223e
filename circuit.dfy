/** The flat circuit representation: instructions over qubit and register
    ids, interleaved with comments, attributes and ticks; and the helpers
    that measure a circuit's dimensions. */
module Circuit {
  import opened Wrappers
  import opened Paulis

  /** An instruction target. `OtherTarget` stands for any value that is
      neither a qubit nor a register id. */
  datatype Target = QubitId(value: int) | RegisterId(value: int) | OtherTarget

  /** One entry of a circuit. Only `Instruction` has targets, and those may
      be absent (Python `None`). The parameters used in this model are
      Pauli lists. */
  datatype Element =
    | Comment(text: string)
    | Attr(name: string, attrValue: Option<string>)
    | Tick
    | Instruction(operation: string, targets: Option<seq<Target>>, parameters: seq<Pauli>)

  predicate HasTargets(e: Element) {
    e.Instruction? && e.targets.Some?
  }

  /** `t` is a target of some instruction of `elems`. */
  ghost predicate Mentions(elems: seq<Element>, t: Target) {
    exists i :: 0 <= i < |elems| && HasTargets(elems[i]) && t in elems[i].targets.value
  }

  function CountInstructions(elems: seq<Element>): nat {
    if elems == [] then 0
    else CountInstructions(elems[..|elems| - 1]) + (if elems[|elems| - 1].Instruction? then 1 else 0)
  }

  /** Every element can be asked for its targets, as `max_register` and
      `max_qubit` do for every element. */
  predicate AllHaveTargets(elems: seq<Element>) {
    forall i :: 0 <= i < |elems| ==> HasTargets(elems[i])
  }

  lemma MentionsPrefix(elems: seq<Element>, k: nat, t: Target)
    requires k < |elems|
    ensures Mentions(elems[..k + 1], t) <==>
            Mentions(elems[..k], t) || (HasTargets(elems[k]) && t in elems[k].targets.value)
  {
    if Mentions(elems[..k + 1], t) {
      var i :| 0 <= i < k + 1 && HasTargets(elems[..k + 1][i]) && t in elems[..k + 1][i].targets.value;
      if i < k {
        assert elems[..k][i] == elems[i];
      }
    }
    if Mentions(elems[..k], t) {
      var i :| 0 <= i < k && HasTargets(elems[..k][i]) && t in elems[..k][i].targets.value;
      assert elems[..k + 1][i] == elems[i];
    }
    if HasTargets(elems[k]) && t in elems[k].targets.value {
      assert elems[..k + 1][k] == elems[k];
    }
  }

  /** The largest register id used (0 when there is none); an element
      without targets is an error. */
  method MaxRegister(elems: seq<Element>) returns (r: Result<int>)
    ensures r.Ok? <==> AllHaveTargets(elems)
    ensures r.Ok? ==> r.value >= 0
    ensures r.Ok? ==> forall v :: Mentions(elems, RegisterId(v)) ==> v <= r.value
    ensures r.Ok? ==> r.value == 0 || Mentions(elems, RegisterId(r.value))
  {
    var max := 0;
    var i := 0;
    while i < |elems|
      invariant 0 <= i <= |elems|
      invariant forall k :: 0 <= k < i ==> HasTargets(elems[k])
      invariant max >= 0
      invariant forall v :: Mentions(elems[..i], RegisterId(v)) ==> v <= max
      invariant max == 0 || Mentions(elems[..i], RegisterId(max))
    {
      if !HasTargets(elems[i]) {
        assert !AllHaveTargets(elems) by { assert !HasTargets(elems[i]); }
        return Err("element without targets");
      }
      var ts := elems[i].targets.value;
      var j := 0;
      while j < |ts|
        invariant 0 <= j <= |ts|
        invariant max >= 0
        invariant forall v :: (Mentions(elems[..i], RegisterId(v)) || RegisterId(v) in ts[..j]) ==> v <= max
        invariant max == 0 || Mentions(elems[..i], RegisterId(max)) || RegisterId(max) in ts[..j]
      {
        if ts[j].RegisterId? && ts[j].value > max {
          max := ts[j].value;
        }
        assert ts[..j + 1] == ts[..j] + [ts[j]];
        j := j + 1;
      }
      assert ts[..j] == ts;
      forall v ensures Mentions(elems[..i + 1], RegisterId(v)) <==>
                       Mentions(elems[..i], RegisterId(v)) || RegisterId(v) in ts {
        MentionsPrefix(elems, i, RegisterId(v));
      }
      i := i + 1;
    }
    assert elems[..i] == elems;
    r := Ok(max);
  }

  /** The largest qubit id used (0 when there is none); an element without
      targets is an error. */
  method MaxQubit(elems: seq<Element>) returns (r: Result<int>)
    ensures r.Ok? <==> AllHaveTargets(elems)
    ensures r.Ok? ==> r.value >= 0
    ensures r.Ok? ==> forall v :: Mentions(elems, QubitId(v)) ==> v <= r.value
    ensures r.Ok? ==> r.value == 0 || Mentions(elems, QubitId(r.value))
  {
    var max := 0;
    var i := 0;
    while i < |elems|
      invariant 0 <= i <= |elems|
      invariant forall k :: 0 <= k < i ==> HasTargets(elems[k])
      invariant max >= 0
      invariant forall v :: Mentions(elems[..i], QubitId(v)) ==> v <= max
      invariant max == 0 || Mentions(elems[..i], QubitId(max))
    {
      if !HasTargets(elems[i]) {
        assert !AllHaveTargets(elems) by { assert !HasTargets(elems[i]); }
        return Err("element without targets");
      }
      var ts := elems[i].targets.value;
      var j := 0;
      while j < |ts|
        invariant 0 <= j <= |ts|
        invariant max >= 0
        invariant forall v :: (Mentions(elems[..i], QubitId(v)) || QubitId(v) in ts[..j]) ==> v <= max
        invariant max == 0 || Mentions(elems[..i], QubitId(max)) || QubitId(max) in ts[..j]
      {
        if ts[j].QubitId? && ts[j].value > max {
          max := ts[j].value;
        }
        assert ts[..j + 1] == ts[..j] + [ts[j]];
        j := j + 1;
      }
      assert ts[..j] == ts;
      forall v ensures Mentions(elems[..i + 1], QubitId(v)) <==>
                       Mentions(elems[..i], QubitId(v)) || QubitId(v) in ts {
        MentionsPrefix(elems, i, QubitId(v));
      }
      i := i + 1;
    }
    assert elems[..i] == elems;
    r := Ok(max);
  }

  // ---------------------------------------------------------------------
  // circuit_dimensions

  /** The instructions have targets, and every target is a qubit or a
      register id. */
  predicate DimensionsDefined(elems: seq<Element>) {
    forall i :: 0 <= i < |elems| && elems[i].Instruction? ==>
      elems[i].targets.Some? && OtherTarget !in elems[i].targets.value
  }

  /** The targets loop exactly as written: a qubit id replaces the running
      qubit maximum whenever it exceeds the running REGISTER maximum. */
  function TargetsAsWritten(ts: seq<Target>, maxQ: int, maxR: int): Result<(int, int)>
    decreases |ts|
  {
    if ts == [] then Ok((maxQ, maxR))
    else match ts[0]
      case RegisterId(v) => TargetsAsWritten(ts[1..], maxQ, if v > maxR then v else maxR)
      case QubitId(v) => TargetsAsWritten(ts[1..], if v > maxR then v else maxQ, maxR)
      case OtherTarget => Err("Unknown target type.")
  }

  function ElementsAsWritten(elems: seq<Element>, maxQ: int, maxR: int, count: nat): Result<(int, int, int)>
    decreases |elems|
  {
    if elems == [] then Ok((maxQ + 1, maxR + 1, count))
    else if !elems[0].Instruction? then ElementsAsWritten(elems[1..], maxQ, maxR, count)
    else if elems[0].targets.None? then Err("targets is None")
    else match TargetsAsWritten(elems[0].targets.value, maxQ, maxR)
      case Err(e) => Err(e)
      case Ok((q, r)) => ElementsAsWritten(elems[1..], q, r, count + 1)
  }

  /** `circuit_dimensions` as written. Only the qubit count is off: it
      fails exactly where the corrected version does, and counts the
      instructions the same way. */
  function DimensionsAsWritten(elems: seq<Element>): (r: Result<(int, int, int)>)
    ensures r.Ok? <==> DimensionsDefined(elems)
    ensures r.Ok? ==> r.value.2 == CountInstructions(elems)
  {
    ElementsAsWrittenFacts(elems, -1, -1, 0);
    ElementsAsWritten(elems, -1, -1, 0)
  }

  /** The inner loop fails exactly at a target of neither kind. */
  lemma {:induction false} TargetsAsWrittenFails(ts: seq<Target>, maxQ: int, maxR: int)
    ensures TargetsAsWritten(ts, maxQ, maxR).Ok? <==> OtherTarget !in ts
    decreases |ts|
  {
    if ts != [] {
      var q := if ts[0].QubitId? && ts[0].value > maxR then ts[0].value else maxQ;
      var r := if ts[0].RegisterId? && ts[0].value > maxR then ts[0].value else maxR;
      TargetsAsWrittenFails(ts[1..], q, r);
      assert ts == [ts[0]] + ts[1..];
    }
  }

  /** Counting from the front. */
  lemma {:induction false} CountInstructionsFront(elems: seq<Element>)
    requires elems != []
    ensures CountInstructions(elems) == (if elems[0].Instruction? then 1 else 0) + CountInstructions(elems[1..])
    decreases |elems|
  {
    if |elems| > 1 {
      var m := |elems| - 1;
      CountInstructionsFront(elems[..m]);
      assert elems[..m][1..] == elems[1..][..|elems[1..]| - 1];
      assert elems[..m][0] == elems[0];
    } else {
      assert elems[1..] == [] && elems[..0] == [];
    }
  }

  lemma {:induction false} ElementsAsWrittenFacts(elems: seq<Element>, maxQ: int, maxR: int, count: nat)
    ensures ElementsAsWritten(elems, maxQ, maxR, count).Ok? <==> DimensionsDefined(elems)
    ensures ElementsAsWritten(elems, maxQ, maxR, count).Ok? ==>
              ElementsAsWritten(elems, maxQ, maxR, count).value.2 == count + CountInstructions(elems)
    decreases |elems|
  {
    if elems != [] {
      CountInstructionsFront(elems);
      var rest := elems[1..];
      assert DimensionsDefined(elems) <==>
               (elems[0].Instruction? ==> elems[0].targets.Some? && OtherTarget !in elems[0].targets.value) &&
               DimensionsDefined(rest) by {
        assert forall i :: 0 < i < |elems| ==> elems[i] == rest[i - 1];
      }
      if !elems[0].Instruction? {
        ElementsAsWrittenFacts(rest, maxQ, maxR, count);
      } else if elems[0].targets.Some? {
        TargetsAsWrittenFails(elems[0].targets.value, maxQ, maxR);
        var t := TargetsAsWritten(elems[0].targets.value, maxQ, maxR);
        if t.Ok? {
          ElementsAsWrittenFacts(rest, t.value.0, t.value.1, count + 1);
        }
      }
    }
  }

  /** The source's loop, as written. */
  method CircuitDimensionsAsWritten(elems: seq<Element>) returns (r: Result<(int, int, int)>)
    ensures r == DimensionsAsWritten(elems)
  {
    var maxQ, maxR, count := -1, -1, 0;
    var i := 0;
    while i < |elems|
      invariant 0 <= i <= |elems|
      invariant DimensionsAsWritten(elems) == ElementsAsWritten(elems[i..], maxQ, maxR, count)
    {
      assert elems[i..][0] == elems[i] && elems[i..][1..] == elems[i + 1..];
      if elems[i].Instruction? {
        if elems[i].targets.None? {
          return Err("targets is None");
        }
        count := count + 1;
        var ts := elems[i].targets.value;
        var q0, r0 := maxQ, maxR;
        var j := 0;
        while j < |ts|
          invariant 0 <= j <= |ts|
          invariant TargetsAsWritten(ts, q0, r0) == TargetsAsWritten(ts[j..], maxQ, maxR)
        {
          assert ts[j..][0] == ts[j] && ts[j..][1..] == ts[j + 1..];
          if ts[j].OtherTarget? {
            return Err("Unknown target type.");
          } else if ts[j].RegisterId? {
            if ts[j].value > maxR { maxR := ts[j].value; }
          } else if ts[j].value > maxR {
            maxQ := ts[j].value;
          }
          j := j + 1;
        }
      }
      i := i + 1;
    }
    r := Ok((maxQ + 1, maxR + 1, count));
  }

  /** On a single two-qubit instruction whose second qubit is the smaller,
      the as-written loop reports one qubit although qubit 2 is used. */
  lemma DimensionsAsWrittenUndercounts()
    ensures Mentions([Instruction("cx", Some([QubitId(2), QubitId(0)]), [])], QubitId(2))
    ensures DimensionsAsWritten([Instruction("cx", Some([QubitId(2), QubitId(0)]), [])]) == Ok((1, 0, 1))
  {
    var e := [Instruction("cx", Some([QubitId(2), QubitId(0)]), [])];
    assert HasTargets(e[0]) && QubitId(2) in e[0].targets.value;
    var ts := [QubitId(2), QubitId(0)];
    assert TargetsAsWritten(ts[2..], 0, -1) == Ok((0, -1));
    assert TargetsAsWritten(ts[1..], 2, -1) == Ok((0, -1));
    assert TargetsAsWritten(ts, -1, -1) == Ok((0, -1));
    assert ElementsAsWritten(e[1..], 0, -1, 1) == Ok((1, 0, 1));
  }

  /** `circuit_dimensions` with the qubit comparison made against the
      running qubit maximum: one more than the largest qubit id and one more
      than the largest register id (0 when none is above -1), and the number
      of instructions. A target that is neither kind, or an instruction
      without targets, is an error. */
  method CircuitDimensions(elems: seq<Element>) returns (r: Result<(int, int, int)>)
    ensures r.Ok? <==> DimensionsDefined(elems)
    ensures r.Ok? ==> r.value.2 == CountInstructions(elems)
    ensures r.Ok? ==> r.value.0 >= 0 && r.value.1 >= 0
    ensures r.Ok? ==> forall v :: Mentions(elems, QubitId(v)) ==> v < r.value.0
    ensures r.Ok? ==> r.value.0 == 0 || Mentions(elems, QubitId(r.value.0 - 1))
    ensures r.Ok? ==> forall v :: Mentions(elems, RegisterId(v)) ==> v < r.value.1
    ensures r.Ok? ==> r.value.1 == 0 || Mentions(elems, RegisterId(r.value.1 - 1))
  {
    var maxQ, maxR, count := -1, -1, 0;
    var i := 0;
    while i < |elems|
      invariant 0 <= i <= |elems|
      invariant forall k :: 0 <= k < i && elems[k].Instruction? ==>
                  elems[k].targets.Some? && OtherTarget !in elems[k].targets.value
      invariant count == CountInstructions(elems[..i])
      invariant maxQ >= -1 && maxR >= -1
      invariant forall v :: Mentions(elems[..i], QubitId(v)) ==> v <= maxQ
      invariant maxQ == -1 || Mentions(elems[..i], QubitId(maxQ))
      invariant forall v :: Mentions(elems[..i], RegisterId(v)) ==> v <= maxR
      invariant maxR == -1 || Mentions(elems[..i], RegisterId(maxR))
    {
      assert elems[..i + 1][..i] == elems[..i];
      if elems[i].Instruction? {
        if elems[i].targets.None? {
          assert !DimensionsDefined(elems) by { assert elems[i].Instruction? && elems[i].targets.None?; }
          return Err("targets is None");
        }
        count := count + 1;
        var ts := elems[i].targets.value;
        var ok, q, r := TargetMaxima(ts, maxQ, maxR);
        if !ok {
          assert !DimensionsDefined(elems) by { assert OtherTarget in elems[i].targets.value; }
          return Err("Unknown target type.");
        }
        maxQ, maxR := q, r;
      }
      forall t ensures Mentions(elems[..i + 1], t) <==>
                       Mentions(elems[..i], t) || (HasTargets(elems[i]) && t in elems[i].targets.value) {
        MentionsPrefix(elems, i, t);
      }
      i := i + 1;
    }
    assert elems[..i] == elems;
    r := Ok((maxQ + 1, maxR + 1, count));
  }

  /** The inner loop of `circuit_dimensions` (with the comparison against
      the qubit maximum): the running maxima over the targets `ts`, or
      failure at a target that is neither kind. */
  method TargetMaxima(ts: seq<Target>, maxQ: int, maxR: int) returns (ok: bool, q: int, r: int)
    ensures ok <==> OtherTarget !in ts
    ensures ok ==> q >= maxQ && r >= maxR
    ensures ok ==> (forall v :: QubitId(v) in ts ==> v <= q) && (q == maxQ || QubitId(q) in ts)
    ensures ok ==> (forall v :: RegisterId(v) in ts ==> v <= r) && (r == maxR || RegisterId(r) in ts)
  {
    q, r := maxQ, maxR;
    var j := 0;
    while j < |ts|
      invariant 0 <= j <= |ts|
      invariant OtherTarget !in ts[..j]
      invariant q >= maxQ && r >= maxR
      invariant (forall v :: QubitId(v) in ts[..j] ==> v <= q) && (q == maxQ || QubitId(q) in ts[..j])
      invariant (forall v :: RegisterId(v) in ts[..j] ==> v <= r) && (r == maxR || RegisterId(r) in ts[..j])
    {
      if ts[j].OtherTarget? {
        return false, q, r;
      } else if ts[j].RegisterId? {
        if ts[j].value > r { r := ts[j].value; }
      } else if ts[j].value > q {
        q := ts[j].value;
      }
      assert ts[..j + 1] == ts[..j] + [ts[j]];
      j := j + 1;
    }
    assert ts[..j] == ts;
    ok := true;
  }
}
