/** Measurement decoders: the closures the gadget libraries attach to each
    gadget, here as values of one datatype, with the state change each makes
    to the shared classical memory and the per-qubit Pauli corrections. */
module Decoders {
  import opened Wrappers
  import opened Paulis
  import opened Circuit
  import opened LookupTables

  /** A classical memory cell: a measured or decoded bit, or the "?" a
      bit-flip readout writes once its block was aborted. */
  datatype Cell = Bit(bit: int) | Unknown

  /** The corrections tracked per physical qubit; `None` marks an aborted
      block. */
  type Corrections = seq<Option<Pauli>>

  datatype Decoder =
      /** The syndrome decoder of the shared stabilizer context: propagates
          aborts, and in abort mode aborts on any non-trivial syndrome. */
    | Correct(qubits: seq<nat>, registers: seq<nat>, group: seq<PString>, table: Table, abort: bool)
      /** The older repetition-code syndrome decoder: no abort handling. */
    | Lookup(qubits: seq<nat>, registers: seq<nat>, group: seq<PString>, table: Table)
      /** A logical readout: the raw outcome corrected by the block's
          corrections against `op`, written to the encoded register;
          `markUnknown` writes "?" when the block was aborted. */
    | Readout(raw: nat, encoded: nat, qubits: seq<nat>, op: PString, markUnknown: bool)

  /** A compiled gadget: a name, its circuit and an optional decoder. */
  datatype Gadget = Gadget(name: string, circuit: seq<Element>, decoder: Option<Decoder>)

  predicate InRange(idx: seq<nat>, n: nat) {
    forall i :: 0 <= i < |idx| ==> idx[i] < n
  }

  predicate NoDuplicates<T(==)>(s: seq<T>) {
    forall i, j :: 0 <= i < j < |s| ==> s[i] != s[j]
  }

  /** The entries of `xs` at the given indices, in their order: a generator
      restricted to some qubits, or the cells a decoder reads. */
  function Gather<T>(xs: seq<T>, idx: seq<nat>): (r: seq<T>)
    requires InRange(idx, |xs|)
    ensures |r| == |idx| && forall i :: 0 <= i < |idx| ==> r[i] == xs[idx[i]]
  {
    seq(|idx|, i requires 0 <= i < |idx| => xs[idx[i]])
  }

  /** `xs` after writing `vs[0]` at `idx[0]`, then `vs[1]` at `idx[1]`, and
      so on (a later write to the same index wins). */
  function Assign<T>(xs: seq<T>, idx: seq<nat>, vs: seq<T>): (r: seq<T>)
    requires InRange(idx, |xs|) && |vs| == |idx|
    ensures |r| == |xs|
    decreases |idx|
  {
    if idx == [] then xs
    else Assign(xs, idx[..|idx| - 1], vs[..|idx| - 1])[idx[|idx| - 1] := vs[|idx| - 1]]
  }

  lemma {:induction false} AssignSpec<T>(xs: seq<T>, idx: seq<nat>, vs: seq<T>)
    requires InRange(idx, |xs|) && |vs| == |idx| && NoDuplicates(idx)
    ensures forall i :: 0 <= i < |idx| ==> Assign(xs, idx, vs)[idx[i]] == vs[i]
    ensures forall j :: 0 <= j < |xs| && j !in idx ==> Assign(xs, idx, vs)[j] == xs[j]
    decreases |idx|
  {
    if idx != [] {
      var m := |idx| - 1;
      var pre, pv := idx[..m], vs[..m];
      assert NoDuplicates(pre) by {
        forall a, b | 0 <= a < b < |pre| ensures pre[a] != pre[b] {
          assert pre[a] == idx[a] && pre[b] == idx[b];
        }
      }
      AssignSpec(xs, pre, pv);
      var r := Assign(xs, pre, pv);
      assert Assign(xs, idx, vs) == r[idx[m] := vs[m]];
      forall i | 0 <= i < |idx| ensures Assign(xs, idx, vs)[idx[i]] == vs[i] {
        if i < m {
          assert pre[i] == idx[i] && pv[i] == vs[i];
          assert idx[i] != idx[m];
        }
      }
      forall j | 0 <= j < |xs| && j !in idx ensures Assign(xs, idx, vs)[j] == xs[j] {
        assert j !in pre;
        assert j != idx[m];
      }
    }
  }

  function Fill<T>(xs: seq<T>, idx: seq<nat>, v: T): (r: seq<T>)
    requires InRange(idx, |xs|)
  {
    Assign(xs, idx, seq(|idx|, _ => v))
  }

  predicate AllSome(xs: Corrections) {
    forall i :: 0 <= i < |xs| ==> xs[i].Some?
  }

  function Values(xs: Corrections): (r: PString)
    requires AllSome(xs)
    ensures |r| == |xs| && forall i :: 0 <= i < |xs| ==> xs[i] == Some(r[i])
  {
    seq(|xs|, i requires 0 <= i < |xs| => xs[i].value)
  }

  function Wrap(ps: PString): (r: Corrections)
    ensures |r| == |ps| && AllSome(r) && Values(r) == ps
  {
    seq(|ps|, i requires 0 <= i < |ps| => Some(ps[i]))
  }

  /** The first `m` cells are bits. */
  predicate KnownPrefix(cells: seq<Cell>, m: nat) {
    m <= |cells| && forall k :: 0 <= k < m ==> cells[k].Bit?
  }

  function BitsOf(cells: seq<Cell>, m: nat): (r: seq<int>)
    requires KnownPrefix(cells, m)
    ensures |r| == m && forall k :: 0 <= k < m ==> cells[k] == Bit(r[k])
  {
    seq(m, k requires 0 <= k < m => cells[k].bit)
  }

  /** The corrected syndrome: each measured bit updated against its
      generator and the block's last corrections (`zip` keeps the shorter
      length). */
  function NewSyndrome(bits: seq<int>, group: seq<PString>, last: PString): (r: Syndrome)
    ensures |r| == Min(|bits|, |group|)
    ensures forall k :: 0 <= k < |r| ==> r[k] == UpdatedValue(bits[k], group[k], last)
  {
    seq(Min(|bits|, |group|), k requires 0 <= k < Min(|bits|, |group|) => UpdatedValue(bits[k], group[k], last))
  }

  /** What the corrected syndrome means: every value is a bit; a last
      correction that commutes with every generator leaves the measured
      parities; with signs +1 and +i only, each measured bit has the last
      correction's own syndrome bit taken off. */
  lemma NewSyndromeMeaning(bits: seq<int>, group: seq<PString>, last: PString)
    ensures var r := NewSyndrome(bits, group, last);
      forall k :: 0 <= k < |r| ==> r[k] == 0 || r[k] == 1
    ensures (forall k, j :: 0 <= k < |group| && 0 <= j < Min(|group[k]|, |last|) ==> Commutes(group[k][j], last[j])) ==>
      var r := NewSyndrome(bits, group, last);
      forall k :: 0 <= k < |r| ==> r[k] == bits[k] % 2
    ensures (forall j :: 0 <= j < |last| ==> last[j].sign < 2) &&
            (forall k, j :: 0 <= k < |group| && 0 <= j < |group[k]| ==> group[k][j].sign < 2) ==>
      var r := NewSyndrome(bits, group, last);
      forall k :: 0 <= k < |r| ==> r[k] == (bits[k] + SyndromeOf(group, last)[k]) % 2
  {
    var r := NewSyndrome(bits, group, last);
    forall k | 0 <= k < |r|
      ensures r[k] == 0 || r[k] == 1
      ensures (forall j :: 0 <= j < Min(|group[k]|, |last|) ==> Commutes(group[k][j], last[j])) ==> r[k] == bits[k] % 2
      ensures (forall j :: 0 <= j < |last| ==> last[j].sign < 2) && (forall j :: 0 <= j < |group[k]| ==> group[k][j].sign < 2) ==>
        r[k] == (bits[k] + SyndromeOf(group, last)[k]) % 2
    {
      UpdatedValueProperties(bits[k], group[k], last);
    }
  }

  /** Elementwise products `a[i] * b[i]`; `None` if one of them is
      undefined. */
  function Products(a: PString, b: PString): (r: Option<PString>)
    requires |a| <= |b|
    ensures r.Some? <==> forall i :: 0 <= i < |a| ==> Mul(a[i], b[i]).Some?
    ensures r.Some? ==> |r.value| == |a| && forall i :: 0 <= i < |a| ==> Mul(a[i], b[i]) == Some(r.value[i])
    decreases |a|
  {
    if a == [] then Some([])
    else
      var m := |a| - 1;
      match Products(a[..m], b)
      case None => None
      case Some(p) => if Mul(a[m], b[m]).None? then None else Some(p + [Mul(a[m], b[m]).value])
  }

  /** The indices a decoder reads and writes are inside the memory and the
      corrections. */
  predicate Fits(d: Decoder, memLength: nat, corrLength: nat) {
    match d
    case Correct(qubits, registers, _, _, _) => InRange(qubits, corrLength) && InRange(registers, memLength)
    case Lookup(qubits, registers, _, _) => InRange(qubits, corrLength) && InRange(registers, memLength)
    case Readout(raw, encoded, qubits, _, _) => raw < memLength && encoded < memLength && InRange(qubits, corrLength)
  }

  type State = (seq<Cell>, Corrections)

  /** Corrections after a table lookup: `last[i] * correction[i]` at each
      block qubit, the correction being the table entry for the syndrome
      or all-identity when the syndrome is missing. */
  function ApplyLookup(corr: Corrections, qubits: seq<nat>, last: PString, syn: Syndrome, table: Table): (r: Result<Corrections>)
    requires InRange(qubits, |corr|) && |last| == |qubits|
    ensures r.Ok? ==> |r.value| == |corr|
  {
    var c := if syn in table then table[syn] else IdentityString(|qubits|);
    if |c| < |qubits| then Err("list index out of range")
    else match Products(last, c)
      case None => Err("Can only multiply Pauli with another Pauli")
      case Some(p) => Ok(Assign(corr, qubits, Wrap(p)))
  }

  /** The state change a decoder makes, or the error it raises. */
  function Step(d: Decoder, mem: seq<Cell>, corr: Corrections): (r: Result<State>)
    requires Fits(d, |mem|, |corr|)
    ensures r.Ok? ==> |r.value.0| == |mem| && |r.value.1| == |corr|
  {
    match d
    case Correct(qubits, registers, group, table, abort) =>
      var last := Gather(corr, qubits);
      if !AllSome(last) then Ok((mem, Fill(corr, qubits, None)))
      else
        var cells := Gather(mem, registers);
        var m := Min(|registers|, |group|);
        if !KnownPrefix(cells, m) then Err("syndrome value is not an integer")
        else
          var syn := NewSyndrome(BitsOf(cells, m), group, Values(last));
          if abort then
            if syn == Zeros(|registers|) then Ok((mem, corr)) else Ok((mem, Fill(corr, qubits, None)))
          else (match ApplyLookup(corr, qubits, Values(last), syn, table)
            case Err(e) => Err(e)
            case Ok(c) => Ok((mem, c)))
    case Lookup(qubits, registers, group, table) =>
      var last := Gather(corr, qubits);
      if !AllSome(last) then Err("correction is None")
      else
        var cells := Gather(mem, registers);
        var m := Min(|registers|, |group|);
        if !KnownPrefix(cells, m) then Err("syndrome value is not an integer")
        else (match ApplyLookup(corr, qubits, Values(last), NewSyndrome(BitsOf(cells, m), group, Values(last)), table)
          case Err(e) => Err(e)
          case Ok(c) => Ok((mem, c)))
    case Readout(raw, encoded, qubits, op, markUnknown) =>
      var last := Gather(corr, qubits);
      if markUnknown && !AllSome(last) then Ok((mem[encoded := Unknown], corr))
      else if exists k :: 0 <= k < Min(|op|, |last|) && last[k].None? && op[k] != I then
        Err("correction is None")
      else if mem[raw].Unknown? then Err("raw value is not an integer")
      else
        // a `None` left here sits against an identity, which commutes
        var known := seq(|last|, k requires 0 <= k < |last| => if last[k].Some? then last[k].value else I);
        Ok((mem[encoded := Bit(UpdatedValue(mem[raw].bit, op, known))], corr))
  }

  // ---------------------------------------------------------------------
  // Running a decoder in place

  /** The comprehension of corrected syndrome values. */
  method ComputeSyndrome(bits: seq<int>, group: seq<PString>, last: PString) returns (syn: Syndrome)
    ensures syn == NewSyndrome(bits, group, last)
  {
    syn := [];
    var k := 0;
    while k < Min(|bits|, |group|)
      invariant 0 <= k <= Min(|bits|, |group|)
      invariant syn == NewSyndrome(bits, group, last)[..k]
    {
      var v := UpdateSyndromeValue(bits[k], group[k], last);
      syn := syn + [v];
      k := k + 1;
    }
  }

  /** The `for i, q in enumerate(qubits)` write loop. */
  method WriteAll<T>(a: array<T>, idx: seq<nat>, vs: seq<T>)
    requires InRange(idx, a.Length) && |vs| == |idx|
    modifies a
    ensures a[..] == Assign(old(a[..]), idx, vs)
  {
    var i := 0;
    while i < |idx|
      invariant 0 <= i <= |idx|
      invariant a[..] == Assign(old(a[..]), idx[..i], vs[..i])
    {
      assert idx[..i + 1][..i] == idx[..i] && vs[..i + 1][..i] == vs[..i];
      a[idx[i]] := vs[i];
      i := i + 1;
    }
    assert idx[..i] == idx && vs[..i] == vs;
  }

  /** Runs `d` on the shared memory and corrections; `false` when the
      decoder raises, in which case the arrays are left as far as it got. */
  method RunDecoder(d: Decoder, memory: array<Cell>, corrections: array<Option<Pauli>>) returns (ok: bool)
    requires Fits(d, memory.Length, corrections.Length)
    modifies memory, corrections
    ensures ok <==> Step(d, old(memory[..]), old(corrections[..])).Ok?
    ensures ok ==> (memory[..], corrections[..]) == Step(d, old(memory[..]), old(corrections[..])).value
  {
    match d
    case Correct(qubits, registers, group, table, abort) =>
      var last := Gather(corrections[..], qubits);
      if !AllSome(last) {
        WriteAll(corrections, qubits, seq(|qubits|, _ => None));
        return true;
      }
      var cells := Gather(memory[..], registers);
      var m := Min(|registers|, |group|);
      if !KnownPrefix(cells, m) {
        return false;
      }
      var syn := ComputeSyndrome(BitsOf(cells, m), group, Values(last));
      if abort {
        if syn != Zeros(|registers|) {
          WriteAll(corrections, qubits, seq(|qubits|, _ => None));
        }
        return true;
      }
      ok := WriteLookup(corrections, qubits, Values(last), syn, table);
    case Lookup(qubits, registers, group, table) =>
      var last := Gather(corrections[..], qubits);
      if !AllSome(last) {
        return false;
      }
      var cells := Gather(memory[..], registers);
      var m := Min(|registers|, |group|);
      if !KnownPrefix(cells, m) {
        return false;
      }
      var syn := ComputeSyndrome(BitsOf(cells, m), group, Values(last));
      ok := WriteLookup(corrections, qubits, Values(last), syn, table);
    case Readout(raw, encoded, qubits, op, markUnknown) =>
      var value := memory[raw];
      var last := Gather(corrections[..], qubits);
      if markUnknown && !AllSome(last) {
        memory[encoded] := Unknown;
        return true;
      }
      if exists k :: 0 <= k < Min(|op|, |last|) && last[k].None? && op[k] != I {
        return false;
      }
      if value.Unknown? {
        return false;
      }
      var known := seq(|last|, k requires 0 <= k < |last| => if last[k].Some? then last[k].value else I);
      var updated := UpdateSyndromeValue(value.bit, op, known);
      memory[encoded] := Bit(updated);
      ok := true;
  }

  /** Looks the syndrome up and writes the products into the block. */
  method WriteLookup(corrections: array<Option<Pauli>>, qubits: seq<nat>, last: PString, syn: Syndrome, table: Table)
    returns (ok: bool)
    requires InRange(qubits, corrections.Length) && |last| == |qubits|
    modifies corrections
    ensures ok <==> ApplyLookup(old(corrections[..]), qubits, last, syn, table).Ok?
    ensures ok ==> corrections[..] == ApplyLookup(old(corrections[..]), qubits, last, syn, table).value
  {
    var c := if syn in table then table[syn] else IdentityString(|qubits|);
    if |c| < |qubits| {
      return false;
    }
    var p := Products(last, c);
    if p.None? {
      return false;
    }
    WriteAll(corrections, qubits, Wrap(p.value));
    ok := true;
  }

  // ---------------------------------------------------------------------
  // What the decoders guarantee

  /** Every correction that is present is a Pauli the product is defined
      on (no identity with a phase). */
  predicate ProperCorrections(corr: Corrections) {
    forall i :: 0 <= i < |corr| && corr[i].Some? ==> Proper(corr[i].value)
  }

  /** Every entry of the table covers the `n` block qubits with proper
      Paulis. */
  predicate ProperTable(table: Table, n: nat) {
    forall s :: s in table ==> |table[s]| == n && forall k :: 0 <= k < n ==> Proper(table[s][k])
  }

  lemma {:induction false} AssignFrom<T>(xs: seq<T>, idx: seq<nat>, vs: seq<T>, j: nat)
    requires InRange(idx, |xs|) && |vs| == |idx| && j < |xs|
    ensures Assign(xs, idx, vs)[j] == xs[j] || Assign(xs, idx, vs)[j] in vs
    decreases |idx|
  {
    if idx != [] {
      var m := |idx| - 1;
      AssignFrom(xs, idx[..m], vs[..m], j);
    }
  }

  /** An aborted qubit aborts its whole block: the syndrome decoder marks
      every block qubit `None`, and nothing else changes. */
  lemma CorrectPropagatesAbort(d: Decoder, mem: seq<Cell>, corr: Corrections)
    requires d.Correct? && Fits(d, |mem|, |corr|) && NoDuplicates(d.qubits)
    requires exists i :: 0 <= i < |d.qubits| && corr[d.qubits[i]].None?
    ensures Step(d, mem, corr).Ok?
    ensures Step(d, mem, corr).value.0 == mem
    ensures forall i :: 0 <= i < |d.qubits| ==> Step(d, mem, corr).value.1[d.qubits[i]].None?
    ensures forall j :: 0 <= j < |corr| && j !in d.qubits ==> Step(d, mem, corr).value.1[j] == corr[j]
  {
    var i :| 0 <= i < |d.qubits| && corr[d.qubits[i]].None?;
    assert Gather(corr, d.qubits)[i].None?;
    AssignSpec(corr, d.qubits, seq(|d.qubits|, _ => None));
  }

  /** In abort mode the decoder never corrects: a trivial corrected
      syndrome leaves everything as it was, any other aborts the block. */
  lemma CorrectAbortMode(d: Decoder, mem: seq<Cell>, corr: Corrections)
    requires d.Correct? && d.abort && Fits(d, |mem|, |corr|) && NoDuplicates(d.qubits)
    requires AllSome(Gather(corr, d.qubits))
    requires KnownPrefix(Gather(mem, d.registers), Min(|d.registers|, |d.group|))
    ensures Step(d, mem, corr).Ok? && Step(d, mem, corr).value.0 == mem
    ensures var syn := NewSyndrome(BitsOf(Gather(mem, d.registers), Min(|d.registers|, |d.group|)),
                                   d.group, Values(Gather(corr, d.qubits)));
            var corr' := Step(d, mem, corr).value.1;
            (syn == Zeros(|d.registers|) ==> corr' == corr) &&
            (syn != Zeros(|d.registers|) ==>
               (forall i :: 0 <= i < |d.qubits| ==> corr'[d.qubits[i]].None?) &&
               (forall j :: 0 <= j < |corr| && j !in d.qubits ==> corr'[j] == corr[j]))
  {
    AssignSpec(corr, d.qubits, seq(|d.qubits|, _ => None));
  }

  /** A block with no correction yet looks up exactly the measured
      syndrome, and takes the table's entry as its correction. */
  lemma FreshBlockTakesTableEntry(d: Decoder, mem: seq<Cell>, corr: Corrections)
    requires (d.Correct? && !d.abort) || d.Lookup?
    requires Fits(d, |mem|, |corr|) && NoDuplicates(d.qubits)
    requires forall i :: 0 <= i < |d.qubits| ==> corr[d.qubits[i]] == Some(I)
    requires |d.registers| == |d.group|
    requires KnownPrefix(Gather(mem, d.registers), |d.group|)
    requires forall k :: 0 <= k < |d.registers| ==> mem[d.registers[k]] == Bit(0) || mem[d.registers[k]] == Bit(1)
    requires BitsOf(Gather(mem, d.registers), |d.group|) in d.table
    requires |d.table[BitsOf(Gather(mem, d.registers), |d.group|)]| == |d.qubits|
    ensures Step(d, mem, corr).Ok? && Step(d, mem, corr).value.0 == mem
    ensures var entry := d.table[BitsOf(Gather(mem, d.registers), |d.group|)];
            forall i :: 0 <= i < |d.qubits| ==> Step(d, mem, corr).value.1[d.qubits[i]] == Some(entry[i])
    ensures forall j :: 0 <= j < |corr| && j !in d.qubits ==> Step(d, mem, corr).value.1[j] == corr[j]
  {
    var last := Gather(corr, d.qubits);
    assert Values(last) == IdentityString(|d.qubits|);
    var bits := BitsOf(Gather(mem, d.registers), |d.group|);
    var syn := NewSyndrome(bits, d.group, Values(last));
    forall k | 0 <= k < |d.group| ensures syn[k] == bits[k] {
      UpdatedValueProperties(bits[k], d.group[k], IdentityString(|d.qubits|));
      assert Gather(mem, d.registers)[k] == mem[d.registers[k]];
    }
    assert syn == bits;
    var entry := d.table[bits];
    var p := Products(Values(last), entry);
    assert p.Some? && p.value == entry;
    AssignSpec(corr, d.qubits, Wrap(entry));
  }

  /** With proper corrections and a proper table, the syndrome decoders
      never raise, never touch memory, and keep the corrections proper. */
  lemma SyndromeDecodersNeverFail(d: Decoder, mem: seq<Cell>, corr: Corrections)
    requires d.Correct? || d.Lookup?
    requires Fits(d, |mem|, |corr|)
    requires ProperCorrections(corr) && ProperTable(d.table, |d.qubits|)
    requires d.Lookup? ==> AllSome(Gather(corr, d.qubits))
    requires KnownPrefix(Gather(mem, d.registers), Min(|d.registers|, |d.group|))
    ensures Step(d, mem, corr).Ok?
    ensures Step(d, mem, corr).value.0 == mem
    ensures ProperCorrections(Step(d, mem, corr).value.1)
  {
    var last := Gather(corr, d.qubits);
    if !AllSome(last) {
      var nones := seq(|d.qubits|, _ => None);
      forall j | 0 <= j < |corr| && Fill(corr, d.qubits, None)[j].Some?
        ensures Proper(Fill(corr, d.qubits, None)[j].value)
      {
        AssignFrom(corr, d.qubits, nones, j);
      }
      return;
    }
    var m := Min(|d.registers|, |d.group|);
    var syn := NewSyndrome(BitsOf(Gather(mem, d.registers), m), d.group, Values(last));
    if d.Correct? && d.abort {
      var nones := seq(|d.qubits|, _ => None);
      forall j | 0 <= j < |corr| && Fill(corr, d.qubits, None)[j].Some?
        ensures Proper(Fill(corr, d.qubits, None)[j].value)
      {
        AssignFrom(corr, d.qubits, nones, j);
      }
      return;
    }
    var c := if syn in d.table then d.table[syn] else IdentityString(|d.qubits|);
    forall i | 0 <= i < |d.qubits| ensures Mul(Values(last)[i], c[i]).Some? && Proper(Mul(Values(last)[i], c[i]).value) {
      assert last[i] == corr[d.qubits[i]];
      MulProperClosed(Values(last)[i], c[i]);
    }
    var p := Products(Values(last), c).value;
    forall j | 0 <= j < |corr| && Assign(corr, d.qubits, Wrap(p))[j].Some?
      ensures Proper(Assign(corr, d.qubits, Wrap(p))[j].value)
    {
      AssignFrom(corr, d.qubits, Wrap(p), j);
      if Assign(corr, d.qubits, Wrap(p))[j] != corr[j] {
        var i :| 0 <= i < |Wrap(p)| && Wrap(p)[i] == Assign(corr, d.qubits, Wrap(p))[j];
        assert Mul(Values(last)[i], c[i]) == Some(p[i]);
      }
    }
  }

  /** The correcting update, for any block that is not aborted: when the
      corrected syndrome is in the table, each block qubit's correction
      becomes its last correction times the entry's Pauli for that qubit;
      when it is missing, the product with all-identity leaves every
      correction as it was. Memory and the other qubits are untouched. */
  lemma LookupUpdatesCorrections(d: Decoder, mem: seq<Cell>, corr: Corrections)
    requires (d.Correct? && !d.abort) || d.Lookup?
    requires Fits(d, |mem|, |corr|) && NoDuplicates(d.qubits)
    requires ProperCorrections(corr) && ProperTable(d.table, |d.qubits|)
    requires AllSome(Gather(corr, d.qubits))
    requires KnownPrefix(Gather(mem, d.registers), Min(|d.registers|, |d.group|))
    ensures Step(d, mem, corr).Ok? && Step(d, mem, corr).value.0 == mem
    ensures var syn := NewSyndrome(BitsOf(Gather(mem, d.registers), Min(|d.registers|, |d.group|)),
                                   d.group, Values(Gather(corr, d.qubits)));
            var corr' := Step(d, mem, corr).value.1;
            (syn in d.table ==> forall i :: 0 <= i < |d.qubits| ==>
               corr'[d.qubits[i]] == Mul(corr[d.qubits[i]].value, d.table[syn][i])) &&
            (syn !in d.table ==> corr' == corr)
    ensures forall j :: 0 <= j < |corr| && j !in d.qubits ==> Step(d, mem, corr).value.1[j] == corr[j]
  {
    var last := Values(Gather(corr, d.qubits));
    var syn := NewSyndrome(BitsOf(Gather(mem, d.registers), Min(|d.registers|, |d.group|)), d.group, last);
    var c := if syn in d.table then d.table[syn] else IdentityString(|d.qubits|);
    forall i | 0 <= i < |d.qubits| ensures Mul(last[i], c[i]).Some? {
      assert Gather(corr, d.qubits)[i] == corr[d.qubits[i]];
      MulProperClosed(last[i], c[i]);
    }
    var p := Products(last, c).value;
    AssignSpec(corr, d.qubits, Wrap(p));
    var corr' := Assign(corr, d.qubits, Wrap(p));
    forall i | 0 <= i < |d.qubits| ensures corr'[d.qubits[i]] == Mul(corr[d.qubits[i]].value, c[i]) {
      assert Gather(corr, d.qubits)[i] == corr[d.qubits[i]];
    }
    if syn !in d.table {
      forall j | 0 <= j < |corr| ensures corr'[j] == corr[j] {
        if j in d.qubits {
          var i :| 0 <= i < |d.qubits| && d.qubits[i] == j;
          assert Gather(corr, d.qubits)[i] == corr[j];
        }
      }
    }
  }

  /** A readout changes only the encoded register: "?" exactly when it
      marks aborted blocks and the block was aborted, otherwise a bit,
      which is the raw outcome's parity when the block has no correction. */
  lemma ReadoutWritesEncoded(d: Decoder, mem: seq<Cell>, corr: Corrections)
    requires d.Readout? && Fits(d, |mem|, |corr|)
    requires Step(d, mem, corr).Ok?
    ensures Step(d, mem, corr).value.1 == corr
    ensures var mem' := Step(d, mem, corr).value.0;
            |mem'| == |mem| && (forall j :: 0 <= j < |mem| && j != d.encoded ==> mem'[j] == mem[j]) &&
            (mem'[d.encoded].Unknown? <==> d.markUnknown && !AllSome(Gather(corr, d.qubits))) &&
            (mem'[d.encoded].Bit? ==> mem'[d.encoded] == Bit(0) || mem'[d.encoded] == Bit(1))
    ensures (forall i :: 0 <= i < |d.qubits| ==> corr[d.qubits[i]] == Some(I)) ==>
              Step(d, mem, corr).value.0[d.encoded] == Bit(mem[d.raw].bit % 2)
  {
    var last := Gather(corr, d.qubits);
    if forall i :: 0 <= i < |d.qubits| ==> corr[d.qubits[i]] == Some(I) {
      var known := seq(|last|, k requires 0 <= k < |last| => if last[k].Some? then last[k].value else I);
      assert known == IdentityString(|last|);
      UpdatedValueProperties(mem[d.raw].bit, d.op, known);
    }
  }
}
