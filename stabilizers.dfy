/** The stabilizer tracker shared by the rep3 and Steane gadget libraries:
    the set of tracked generators over all physical qubits, the register
    counter, the memoized lookup tables, and the syndrome-extraction gadget
    that ends every encoded gate. */
module Stabilizers {
  import opened Wrappers
  import opened Paulis
  import opened Circuit
  import opened LookupTables
  import opened Decoders

  /** Some position is not the identity. */
  predicate NonTrivial(st: PString) {
    exists k :: 0 <= k < |st| && st[k] != I
  }

  /** Every tracked generator is long enough for the qubits. */
  predicate Covers(stabs: seq<PString>, qubits: seq<nat>) {
    forall j :: 0 <= j < |stabs| ==> InRange(qubits, |stabs[j]|)
  }

  /** Adding to a set, which is a duplicate-free sequence in iteration
      order here. */
  function SetAdd(s: seq<PString>, x: PString): seq<PString> {
    if x in s then s else s + [x]
  }

  function SetRemove(s: seq<PString>, x: PString): (r: seq<PString>)
    ensures forall y :: y in r <==> y in s && y != x
    ensures |r| <= |s|
  {
    if s == [] then []
    else if s[0] == x then SetRemove(s[1..], x)
    else [s[0]] + SetRemove(s[1..], x)
  }

  lemma {:induction false} SetRemoveNoDuplicates(s: seq<PString>, x: PString)
    requires NoDuplicates(s)
    ensures NoDuplicates(SetRemove(s, x))
  {
    if s != [] {
      assert NoDuplicates(s[1..]) by {
        forall a, b | 0 <= a < b < |s[1..]| ensures s[1..][a] != s[1..][b] {
          assert s[1..][a] == s[a + 1] && s[1..][b] == s[b + 1];
        }
      }
      SetRemoveNoDuplicates(s[1..], x);
      if s[0] != x {
        var r := SetRemove(s[1..], x);
        assert s[0] !in r by {
          forall k | 0 < k < |s| ensures s[k] != s[0] { }
          assert s[0] !in s[1..];
        }
        forall a, b | 0 <= a < b < |[s[0]] + r| ensures ([s[0]] + r)[a] != ([s[0]] + r)[b] {
          if a == 0 {
            assert ([s[0]] + r)[b] == r[b - 1];
          } else {
            assert ([s[0]] + r)[a] == r[a - 1] && ([s[0]] + r)[b] == r[b - 1];
          }
        }
      }
    }
  }

  /** The result of `find_stabilizer_group`: the non-trivial restrictions,
      each once, in the order the tracked generators are visited. */
  function Group(stabs: seq<PString>, qubits: seq<nat>): seq<PString>
    requires Covers(stabs, qubits)
    decreases |stabs|
  {
    if stabs == [] then []
    else
      var m := |stabs| - 1;
      var st := Gather(stabs[m], qubits);
      if NonTrivial(st) then SetAdd(Group(stabs[..m], qubits), st) else Group(stabs[..m], qubits)
  }

  /** The group holds each non-trivial restriction of a tracked generator,
      once, and nothing else. */
  lemma GroupMembers(stabs: seq<PString>, qubits: seq<nat>)
    requires Covers(stabs, qubits)
    ensures NoDuplicates(Group(stabs, qubits))
    ensures forall g :: g in Group(stabs, qubits) ==>
              NonTrivial(g) && exists j :: 0 <= j < |stabs| && g == Gather(stabs[j], qubits)
    ensures forall j :: 0 <= j < |stabs| && NonTrivial(Gather(stabs[j], qubits)) ==>
              Gather(stabs[j], qubits) in Group(stabs, qubits)
  {
    GroupNoDuplicates(stabs, qubits);
    GroupOnlyRestrictions(stabs, qubits);
    GroupHasEach(stabs, qubits);
  }

  lemma {:induction false} GroupNoDuplicates(stabs: seq<PString>, qubits: seq<nat>)
    requires Covers(stabs, qubits)
    ensures NoDuplicates(Group(stabs, qubits))
    decreases |stabs|
  {
    if stabs != [] {
      var m := |stabs| - 1;
      var pre := stabs[..m];
      assert Covers(pre, qubits);
      GroupNoDuplicates(pre, qubits);
      var g0 := Group(pre, qubits);
      var st := Gather(stabs[m], qubits);
      if NonTrivial(st) && st !in g0 {
        forall a, b | 0 <= a < b < |g0 + [st]| ensures (g0 + [st])[a] != (g0 + [st])[b] {
          if b == |g0| {
            assert (g0 + [st])[a] == g0[a];
          }
        }
      }
    }
  }

  lemma {:induction false} GroupOnlyRestrictions(stabs: seq<PString>, qubits: seq<nat>)
    requires Covers(stabs, qubits)
    ensures forall g :: g in Group(stabs, qubits) ==>
              NonTrivial(g) && exists j :: 0 <= j < |stabs| && g == Gather(stabs[j], qubits)
    decreases |stabs|
  {
    if stabs != [] {
      var m := |stabs| - 1;
      var pre := stabs[..m];
      assert Covers(pre, qubits);
      GroupOnlyRestrictions(pre, qubits);
      var g0 := Group(pre, qubits);
      forall g | g in Group(stabs, qubits)
        ensures NonTrivial(g) && exists j :: 0 <= j < |stabs| && g == Gather(stabs[j], qubits)
      {
        if g in g0 {
          var j :| 0 <= j < |pre| && g == Gather(pre[j], qubits);
          assert stabs[j] == pre[j];
        } else {
          assert g == Gather(stabs[m], qubits);
        }
      }
    }
  }

  lemma {:induction false} GroupHasEach(stabs: seq<PString>, qubits: seq<nat>)
    requires Covers(stabs, qubits)
    ensures forall j :: 0 <= j < |stabs| && NonTrivial(Gather(stabs[j], qubits)) ==>
              Gather(stabs[j], qubits) in Group(stabs, qubits)
    decreases |stabs|
  {
    if stabs != [] {
      var m := |stabs| - 1;
      var pre := stabs[..m];
      assert Covers(pre, qubits);
      GroupHasEach(pre, qubits);
      forall j | 0 <= j < m && NonTrivial(Gather(stabs[j], qubits))
        ensures Gather(stabs[j], qubits) in Group(stabs, qubits)
      {
        assert stabs[j] == pre[j];
      }
    }
  }

  /** The full-length generator for `add_stabilizer`/`remove_stabilizer`:
      identity everywhere, then `ps[k]` written at `qs[k]` pairwise. */
  function Expand(n: nat, ps: PString, qs: seq<nat>): (r: PString)
    requires InRange(qs, n)
    ensures |r| == n
  {
    var m := Min(|ps|, |qs|);
    Assign(IdentityString(n), qs[..m], ps[..m])
  }

  /** Expanding a block-length string over distinct qubits puts each Pauli
      on its qubit and identity elsewhere, so restricting it again gives it
      back. */
  lemma ExpandRestrict(n: nat, ps: PString, qs: seq<nat>)
    requires InRange(qs, n) && NoDuplicates(qs) && |ps| == |qs|
    ensures forall i :: 0 <= i < |qs| ==> Expand(n, ps, qs)[qs[i]] == ps[i]
    ensures forall j :: 0 <= j < n && j !in qs ==> Expand(n, ps, qs)[j] == I
    ensures Gather(Expand(n, ps, qs), qs) == ps
  {
    assert qs[..|qs|] == qs && ps[..|ps|] == ps;
    AssignSpec(IdentityString(n), qs, ps);
  }

  // ---------------------------------------------------------------------
  // Context

  /** Every memoized table is the sound table of its group; the empty group
      has the empty table. */
  ghost predicate TablesSound(tables: map<seq<PString>, Table>, distance: nat) {
    (forall key :: key in tables && |key| > 0 ==> SoundTable(key, distance, tables[key])) &&
    (forall key :: key in tables && |key| == 0 ==> tables[key] == map[])
  }

  lemma TablesSoundAdd(tables: map<seq<PString>, Table>, distance: nat, group: seq<PString>, table: Table)
    requires TablesSound(tables, distance)
    requires |group| > 0 ==> SoundTable(group, distance, table)
    requires |group| == 0 ==> table == map[]
    ensures TablesSound(tables[group := table], distance)
  {
  }

  class Context {
    var registerCount: nat
    const qubitCount: nat
    var stabilizers: seq<PString>
    const distance: nat
    var tables: map<seq<PString>, Table>
    /** Logical qubit to its physical qubits (the per-code contexts). */
    var blocks: map<nat, seq<nat>>
    /** The number of physical qubits per block. */
    const blockSize: nat

    ghost predicate Valid()
      reads this
    {
      NoDuplicates(stabilizers) &&
      (forall j :: 0 <= j < |stabilizers| ==> |stabilizers[j]| == qubitCount) &&
      TablesSound(tables, distance) &&
      (forall b :: b in blocks ==> |blocks[b]| == blockSize && InRange(blocks[b], qubitCount) && NoDuplicates(blocks[b]))
    }

    /** The shared context: no generators, no tables, no blocks. */
    constructor (qubitCount: nat, registerCount: nat, distance: nat)
      ensures Valid()
      ensures this.qubitCount == qubitCount && this.registerCount == registerCount && this.distance == distance
      ensures stabilizers == [] && tables == map[] && blocks == map[]
    {
      this.qubitCount := qubitCount;
      this.registerCount := registerCount;
      this.distance := distance;
      stabilizers := [];
      tables := map[];
      blocks := map[];
      blockSize := 0;
    }

    /** A per-code context: logical qubit `i` owns the `size` physical
        qubits `i * size .. i * size + size - 1`. */
    constructor Blocks(logicalCount: nat, size: nat, registerCount: nat, distance: nat)
      ensures Valid()
      ensures qubitCount == logicalCount * size && this.registerCount == registerCount && this.distance == distance
      ensures stabilizers == [] && tables == map[] && blockSize == size
      ensures blocks == BlockMap(logicalCount, size)
    {
      qubitCount := logicalCount * size;
      this.registerCount := registerCount;
      this.distance := distance;
      stabilizers := [];
      tables := map[];
      blocks := BlockMap(logicalCount, size);
      blockSize := size;
      new;
      forall i | i in blocks
        ensures InRange(blocks[i], qubitCount) && NoDuplicates(blocks[i])
      {
        BlockInRange(i, logicalCount, size);
      }
    }

    /** `new_register`: the next register id; the counter advances by one. */
    method NewRegister() returns (r: nat)
      requires Valid()
      modifies this
      ensures Valid()
      ensures r == old(registerCount) && registerCount == old(registerCount) + 1
      ensures stabilizers == old(stabilizers) && tables == old(tables) && blocks == old(blocks)
    {
      r := registerCount;
      registerCount := registerCount + 1;
    }

    /** `blocks[b] = qubits`: rebinds a logical qubit's physical qubits. */
    method SetBlock(b: nat, qubits: seq<nat>)
      requires Valid() && |qubits| == blockSize && InRange(qubits, qubitCount) && NoDuplicates(qubits)
      modifies this
      ensures Valid() && blocks == old(blocks)[b := qubits]
      ensures stabilizers == old(stabilizers) && tables == old(tables) && registerCount == old(registerCount)
    {
      blocks := blocks[b := qubits];
    }

    /** `find_stabilizer_group`. */
    method FindStabilizerGroup(qubits: seq<nat>) returns (group: seq<PString>)
      requires Valid() && InRange(qubits, qubitCount)
      ensures Covers(stabilizers, qubits)
      ensures group == Group(stabilizers, qubits)
    {
      group := [];
      var j := 0;
      while j < |stabilizers|
        invariant 0 <= j <= |stabilizers|
        invariant Covers(stabilizers[..j], qubits)
        invariant group == Group(stabilizers[..j], qubits)
      {
        assert stabilizers[..j + 1][..j] == stabilizers[..j];
        var st := Gather(stabilizers[j], qubits);
        if exists k :: 0 <= k < |st| && st[k] != I {
          if st !in group {
            group := group + [st];
          }
        }
        j := j + 1;
      }
      assert stabilizers[..j] == stabilizers;
    }

    /** `add_stabilizer`: tracks the expansion of `stabilizer` over
        `qubits`. */
    method AddStabilizer(stabilizer: PString, qubits: seq<nat>)
      requires Valid() && InRange(qubits, qubitCount)
      modifies this
      ensures Valid()
      ensures stabilizers == SetAdd(old(stabilizers), Expand(qubitCount, stabilizer, qubits))
      ensures registerCount == old(registerCount) && tables == old(tables) && blocks == old(blocks)
    {
      var full := new Pauli[qubitCount](_ => I);
      var m := Min(|stabilizer|, |qubits|);
      assert full[..] == IdentityString(qubitCount);
      WriteAll(full, qubits[..m], stabilizer[..m]);
      var s := full[..];
      if s !in stabilizers {
        forall a, b | 0 <= a < b < |stabilizers + [s]|
          ensures (stabilizers + [s])[a] != (stabilizers + [s])[b]
        {
          if b == |stabilizers| {
            assert (stabilizers + [s])[a] == stabilizers[a];
          }
        }
        stabilizers := stabilizers + [s];
      }
    }

    /** `remove_stabilizer`: `false` for the `KeyError` of removing a
        generator that is not tracked, which then changes nothing. */
    method RemoveStabilizer(stabilizer: PString, qubits: seq<nat>) returns (ok: bool)
      requires Valid() && InRange(qubits, qubitCount)
      modifies this
      ensures Valid()
      ensures ok <==> Expand(qubitCount, stabilizer, qubits) in old(stabilizers)
      ensures stabilizers == SetRemove(old(stabilizers), Expand(qubitCount, stabilizer, qubits))
      ensures registerCount == old(registerCount) && tables == old(tables) && blocks == old(blocks)
    {
      var full := new Pauli[qubitCount](_ => I);
      var m := Min(|stabilizer|, |qubits|);
      assert full[..] == IdentityString(qubitCount);
      WriteAll(full, qubits[..m], stabilizer[..m]);
      var s := full[..];
      ok := s in stabilizers;
      SetRemoveNoDuplicates(stabilizers, s);
      stabilizers := SetRemove(stabilizers, s);
      assert forall j :: 0 <= j < |stabilizers| ==> stabilizers[j] in old(stabilizers);
      assert !ok ==> stabilizers == old(stabilizers) by {
        if !ok { SetRemoveAbsent(old(stabilizers), s); }
      }
    }

    /** One step of the `h`/`cx` tracker update: `remove_stabilizer` of a
        generator, then `add_stabilizer` of its image; `false` for the
        `KeyError`, which leaves the tracker as it was. */
    method ReplaceStabilizer(stabilizer: PString, image: PString, qubits: seq<nat>) returns (ok: bool)
      requires Valid() && InRange(qubits, qubitCount)
      modifies this
      ensures Valid()
      ensures ok <==> Expand(qubitCount, stabilizer, qubits) in old(stabilizers)
      ensures ok ==> stabilizers == SetAdd(SetRemove(old(stabilizers), Expand(qubitCount, stabilizer, qubits)), Expand(qubitCount, image, qubits))
      ensures registerCount == old(registerCount) && tables == old(tables) && blocks == old(blocks)
    {
      ok := RemoveStabilizer(stabilizer, qubits);
      if ok {
        AddStabilizer(image, qubits);
      }
    }

    /** The evidently intended tracker update of a gate on `qubits`: every
        tracked generator that is not the identity there gets its
        restriction replaced by its image (`images[j]` for `stabilizers[j]`),
        whatever it holds elsewhere. */
    method ConjugateTracked(qubits: seq<nat>, images: seq<PString>)
      requires Valid() && InRange(qubits, qubitCount) && |images| == |stabilizers|
      modifies this
      ensures Valid() && Covers(old(stabilizers), qubits)
      ensures stabilizers == Conjugated(old(stabilizers), qubits, images)
      ensures registerCount == old(registerCount) && tables == old(tables) && blocks == old(blocks)
    {
      assert Covers(stabilizers, qubits);
      var result := ConjugateAll(stabilizers, qubits, images);
      ConjugatedNoDuplicates(stabilizers, qubits, images);
      ConjugatedLengths(stabilizers, qubits, images, qubitCount);
      stabilizers := result;
    }

    /** The memo: the group's table is built only when it is not kept yet. */
    method Memoize(group: seq<PString>)
      requires Valid()
      modifies this
      ensures Valid() && group in tables
      ensures tables.Keys == old(tables).Keys + {group}
      ensures forall key :: key in old(tables) ==> tables[key] == old(tables)[key]
      ensures registerCount == old(registerCount) && stabilizers == old(stabilizers) && blocks == old(blocks)
    {
      if group !in tables {
        var table := BuildLookupTable(group, distance);
        TablesSoundAdd(tables, distance, group, table);
        tables := tables[group := table];
      }
    }

    /** `build_decoder`: the group's table is built once per group and kept;
        the decoder corrects with it. */
    method BuildDecoder(qubits: seq<nat>, registers: seq<nat>, abort: bool) returns (d: Decoder)
      requires Valid() && InRange(qubits, qubitCount)
      modifies this
      ensures Valid() && Covers(stabilizers, qubits) && Group(stabilizers, qubits) in tables
      ensures d == Correct(qubits, registers, Group(stabilizers, qubits), tables[Group(stabilizers, qubits)], abort)
      ensures ProperTable(d.table, |qubits|)
      ensures |d.group| > 0 ==> SoundTable(d.group, distance, d.table)
      ensures tables.Keys == old(tables).Keys + {Group(stabilizers, qubits)}
      ensures forall key :: key in old(tables) ==> tables[key] == old(tables)[key]
      ensures registerCount == old(registerCount) && stabilizers == old(stabilizers) && blocks == old(blocks)
    {
      var group := FindStabilizerGroup(qubits);
      Memoize(group);
      d := Correct(qubits, registers, group, tables[group], abort);
      MemoizedTableProper(stabilizers, qubits, tables, distance);
    }
  }

  /** The memoized table of a tracked group is sound and proper. */
  lemma MemoizedTableProper(stabs: seq<PString>, qubits: seq<nat>, tables: map<seq<PString>, Table>, distance: nat)
    requires Covers(stabs, qubits) && TablesSound(tables, distance) && Group(stabs, qubits) in tables
    ensures ProperTable(tables[Group(stabs, qubits)], |qubits|)
  {
    var group := Group(stabs, qubits);
    if |group| > 0 {
      GroupMembers(stabs, qubits);
      assert group[0] in group;
      assert |group[0]| == |qubits|;
      SoundTableProper(group, distance, tables[group]);
    }
  }

  lemma SetRemoveAbsent(s: seq<PString>, x: PString)
    requires x !in s
    ensures SetRemove(s, x) == s
  {
    if s != [] {
      SetRemoveAbsent(s[1..], x);
    }
  }

  /** The physical qubits of logical qubit `i` in blocks of `size`. */
  function BlockOf(i: nat, size: nat): (r: seq<nat>)
    ensures |r| == size && forall d :: 0 <= d < size ==> r[d] == i * size + d
  {
    seq(size, d => i * size + d)
  }

  /** The blocks of a per-code context: logical qubit `i < logicalCount`
      owns `BlockOf(i, size)`. */
  function BlockMap(logicalCount: nat, size: nat): (r: map<nat, seq<nat>>)
    ensures forall i: nat :: i in r <==> i < logicalCount
    ensures forall i :: i in r ==> r[i] == BlockOf(i, size)
  {
    map i: nat | i < logicalCount :: BlockOf(i, size)
  }

  lemma MulMonotone(a: nat, b: nat, c: nat)
    requires a <= b
    ensures a * c <= b * c
  {
  }

  /** The blocks of `n` logical qubits are distinct qubits below `n * size`. */
  lemma BlockInRange(i: nat, n: nat, size: nat)
    requires i < n
    ensures InRange(BlockOf(i, size), n * size) && NoDuplicates(BlockOf(i, size))
  {
    MulMonotone(i + 1, n, size);
    assert (i + 1) * size == i * size + size;
  }

  /** The block that owns physical qubit `q`. */
  function BlockIndex(q: nat, size: nat): nat
    requires size > 0
  {
    q / size
  }

  /** Offsets inside blocks of one size identify the block. */
  lemma SameBlock(i: nat, j: nat, d: nat, e: nat, size: nat)
    requires d < size && e < size && i * size + d == j * size + e
    ensures i == j
  {
    if i < j {
      MulMonotone(i + 1, j, size);
    } else if j < i {
      MulMonotone(j + 1, i, size);
    }
  }

  /** The blocks of `BlockMap` partition the physical qubits below
      `n * size`: no qubit lies in two blocks, every such qubit lies in the
      block `BlockIndex` names, and each block is distinct qubits in range. */
  lemma BlocksPartitionQubits(n: nat, size: nat)
    ensures var r := BlockMap(n, size);
      forall i, j, q :: i in r && j in r && q in r[i] && q in r[j] ==> i == j
    ensures var r := BlockMap(n, size);
      forall q: nat :: q < n * size ==> BlockIndex(q, size) in r && q in r[BlockIndex(q, size)]
    ensures var r := BlockMap(n, size);
      forall i :: i in r ==> InRange(r[i], n * size) && NoDuplicates(r[i])
  {
    var r := BlockMap(n, size);
    forall i, j, q | i in r && j in r && q in r[i] && q in r[j]
      ensures i == j
    {
      var d :| 0 <= d < size && r[i][d] == q;
      var e :| 0 <= e < size && r[j][e] == q;
      SameBlock(i, j, d, e, size);
    }
    forall q: nat | q < n * size
      ensures BlockIndex(q, size) in r && q in r[BlockIndex(q, size)]
    {
      var b, d := q / size, q % size;
      assert q == b * size + d;
      if b >= n {
        MulMonotone(n, b, size);
      }
      assert r[b][d] == q;
    }
    forall i | i in r
      ensures InRange(r[i], n * size) && NoDuplicates(r[i])
    {
      BlockInRange(i, n, size);
    }
  }

  /** Reading back the operands of a logical instruction built on qubit
      ids: the `k`-th target exists iff `k` is below the operand count, it
      is the `k`-th id, its memory index is that id, and it names a block of
      `BlockMap(n, size)` iff the id is below `n`, namely its own block. */
  lemma LogicalOperands(name: string, ids: seq<nat>, ps: PString, k: nat, n: nat, size: nat)
    ensures TargetAt(Op(name, ids, ps), k).Some? <==> k < |ids|
    ensures k < |ids| ==>
      var t := TargetAt(Op(name, ids, ps), k);
      t == Some(QubitId(ids[k])) && RegisterOf(t) == Some(ids[k]) &&
      LookupBlock(BlockMap(n, size), t) == if ids[k] < n then Some(BlockOf(ids[k], size)) else None
  {
  }

  /** Entries with only I, X and Z are proper. */
  lemma SoundTableProper(group: seq<PString>, distance: nat, table: Table)
    requires |group| > 0 && SoundTable(group, distance, table)
    ensures ProperTable(table, |group[0]|)
  {
  }

  // ---------------------------------------------------------------------
  // Gate gadgets: operands and tracker updates

  /** `inst.targets[k]`: absent when the element is not an instruction,
      has no targets or too few (the `TypeError`/`IndexError` cases). */
  function TargetAt(inst: Element, k: nat): (r: Option<Target>)
    ensures r.Some? <==> inst.Instruction? && inst.targets.Some? && k < |inst.targets.value|
    ensures r.Some? ==> r.value == inst.targets.value[k]
  {
    if inst.Instruction? && inst.targets.Some? && k < |inst.targets.value| then Some(inst.targets.value[k]) else None
  }

  /** `context.blocks[t]`: only a qubit id that names a block has one (the
      `KeyError` case otherwise). */
  function LookupBlock(blocks: map<nat, seq<nat>>, t: Option<Target>): (r: Option<seq<nat>>)
    ensures r.Some? <==> t.Some? && t.value.QubitId? && t.value.value >= 0 && t.value.value as nat in blocks
    ensures r.Some? ==> r.value == blocks[t.value.value as nat]
  {
    if t.Some? && t.value.QubitId? && t.value.value >= 0 && t.value.value as nat in blocks then
      Some(blocks[t.value.value as nat])
    else None
  }

  /** `target.value` as a memory index: qubit and register ids have one. */
  function RegisterOf(t: Option<Target>): (r: Option<nat>)
    ensures r.Some? <==> t.Some? && !t.value.OtherTarget? && t.value.value >= 0
    ensures r.Some? ==> r.value == t.value.value
  {
    if t.Some? && !t.value.OtherTarget? && t.value.value >= 0 then Some(t.value.value as nat) else None
  }

  // Instruction names of the stabilizer instruction set.
  const PrepareZeroName := "|0\U{27E9}"
  const MeasureZName := "\U{27E8}z|"
  const ReadoutName := "\U{27E8}+z|"
  const HName := "h"
  const XName := "x"
  const CxName := "cx"
  const CzName := "cz"
  const PauliName := "pauli"
  const MppName := "mpp"

  /** Every string has the given length. */
  predicate AllLength(ss: seq<PString>, n: nat) {
    forall j :: 0 <= j < |ss| ==> |ss[j]| == n
  }

  lemma GroupLength(stabs: seq<PString>, qubits: seq<nat>)
    requires Covers(stabs, qubits)
    ensures AllLength(Group(stabs, qubits), |qubits|)
  {
    GroupMembers(stabs, qubits);
    forall j | 0 <= j < |Group(stabs, qubits)| ensures |Group(stabs, qubits)[j]| == |qubits| {
      assert Group(stabs, qubits)[j] in Group(stabs, qubits);
    }
  }

  /** The tracker update of the `h` and `cx` gadgets, as written: for each
      group member in turn, remove its expansion over `qubits` (absent when
      that expansion is not tracked: the `KeyError`), then add the expansion
      of its image under the gate. */
  function Retracked(stabs: seq<PString>, n: nat, qubits: seq<nat>, group: seq<PString>, images: seq<PString>): Option<seq<PString>>
    requires InRange(qubits, n) && |images| == |group|
    decreases |group|
  {
    if group == [] then Some(stabs)
    else
      var m := |group| - 1;
      var prev := Retracked(stabs, n, qubits, group[..m], images[..m]);
      if prev.None? || Expand(n, group[m], qubits) !in prev.value then None
      else Some(SetAdd(SetRemove(prev.value, Expand(n, group[m], qubits)), Expand(n, images[m], qubits)))
  }

  /** The update over one more group member. */
  lemma RetrackedSnoc(stabs: seq<PString>, n: nat, qubits: seq<nat>, group: seq<PString>, images: seq<PString>, k: nat)
    requires InRange(qubits, n) && |images| == |group| && k < |group|
    requires Retracked(stabs, n, qubits, group[..k], images[..k]).Some?
    ensures var cur := Retracked(stabs, n, qubits, group[..k], images[..k]).value;
            Retracked(stabs, n, qubits, group[..k + 1], images[..k + 1]) ==
              if Expand(n, group[k], qubits) in cur
              then Some(SetAdd(SetRemove(cur, Expand(n, group[k], qubits)), Expand(n, images[k], qubits)))
              else None
  {
    assert group[..k + 1][..k] == group[..k] && images[..k + 1][..k] == images[..k];
  }

  /** One turn of the `h`/`cx` tracker loop: replace generator `k` of the
      group by its image; on success the tracker holds the update over the
      first `k + 1` members, on the `KeyError` the whole update fails. */
  method RetrackStep(ctx: Context, ghost stabs: seq<PString>, qubits: seq<nat>, group: seq<PString>, images: seq<PString>, k: nat, image: PString)
    returns (ok: bool)
    requires ctx.Valid() && InRange(qubits, ctx.qubitCount) && |images| == |group| && k < |group| && image == images[k]
    requires Retracked(stabs, ctx.qubitCount, qubits, group[..k], images[..k]) == Some(ctx.stabilizers)
    modifies ctx
    ensures ctx.Valid() && ctx.blocks == old(ctx.blocks) && ctx.registerCount == old(ctx.registerCount)
    ensures ctx.tables == old(ctx.tables)
    ensures ok ==> Retracked(stabs, ctx.qubitCount, qubits, group[..k + 1], images[..k + 1]) == Some(ctx.stabilizers)
    ensures !ok ==> Retracked(stabs, ctx.qubitCount, qubits, group, images).None?
  {
    RetrackedSnoc(stabs, ctx.qubitCount, qubits, group, images, k);
    ok := ctx.ReplaceStabilizer(group[k], image, qubits);
    if !ok {
      RetrackedFailureStays(stabs, ctx.qubitCount, qubits, group, images, k + 1);
    }
  }

  /** Once a removal fails, the whole update fails. */
  lemma {:induction false} RetrackedFailureStays(stabs: seq<PString>, n: nat, qubits: seq<nat>, group: seq<PString>, images: seq<PString>, k: nat)
    requires InRange(qubits, n) && |images| == |group| && k <= |group|
    requires Retracked(stabs, n, qubits, group[..k], images[..k]).None?
    ensures Retracked(stabs, n, qubits, group, images).None?
    decreases |group| - k
  {
    if k == |group| {
      assert group[..k] == group && images[..k] == images;
    } else {
      assert group[..k + 1][..k] == group[..k] && images[..k + 1][..k] == images[..k];
      RetrackedFailureStays(stabs, n, qubits, group, images, k + 1);
    }
  }

  /** One step of the update: the image is tracked, the removed generator
      no longer is (unless it is its own image), and every other tracked
      generator stays. */
  lemma RetrackStepMembers(s: seq<PString>, a: PString, b: PString)
    requires NoDuplicates(s)
    ensures NoDuplicates(SetAdd(SetRemove(s, a), b))
    ensures forall y :: y in SetAdd(SetRemove(s, a), b) <==> y == b || (y in s && y != a)
  {
    SetRemoveNoDuplicates(s, a);
    var r := SetRemove(s, a);
    if b !in r {
      forall i, j | 0 <= i < j < |r + [b]| ensures (r + [b])[i] != (r + [b])[j] {
        if j == |r| {
          assert (r + [b])[i] == r[i];
        }
      }
    }
  }

  /** A generator that spans the block and a qubit outside it defeats the
      update: over the nine qubits of three rep3 blocks, the generator
      `XXI XXI III` (left by a `cx` from block 0 to block 1) restricts on
      blocks 0 and 2 to `XXI III`, whose expansion `XXI III III` is not
      tracked, so a `cx` from block 0 to block 2 stops at the removal. */
  lemma SpanningGeneratorDefeatsRetrack(images: seq<PString>)
    requires |images| == 1
    ensures var stabs := [[X, X, I, X, X, I, I, I, I]];
            var qubits := [0, 1, 2, 6, 7, 8];
            Group(stabs, qubits) == [[X, X, I, I, I, I]] &&
            Retracked(stabs, 9, qubits, Group(stabs, qubits), images).None?
  {
    var stabs: seq<PString> := [[X, X, I, X, X, I, I, I, I]];
    var qubits: seq<nat> := [0, 1, 2, 6, 7, 8];
    var g: PString := [X, X, I, I, I, I];
    SpanningGroup();
    SpanningExpansionUntracked();
    RetrackedSnoc(stabs, 9, qubits, [g], images, 0);
    assert [g][..1] == [g] && images[..1] == images;
  }

  /** The expansion of that restriction has identity on qubit 3, where the
      tracked generator has X. */
  lemma SpanningExpansionUntracked()
    ensures Expand(9, [X, X, I, I, I, I], [0, 1, 2, 6, 7, 8]) !in [[X, X, I, X, X, I, I, I, I]]
  {
    var qubits: seq<nat> := [0, 1, 2, 6, 7, 8];
    var g: PString := [X, X, I, I, I, I];
    ExpandRestrict(9, g, qubits);
    assert 3 !in qubits;
    assert Expand(9, g, qubits)[3] == I;
  }

  /** The group of the spanning generator on blocks 0 and 2. */
  lemma SpanningGroup()
    ensures Group([[X, X, I, X, X, I, I, I, I]], [0, 1, 2, 6, 7, 8]) == [[X, X, I, I, I, I]]
  {
    var stabs: seq<PString> := [[X, X, I, X, X, I, I, I, I]];
    var qubits: seq<nat> := [0, 1, 2, 6, 7, 8];
    var g: PString := [X, X, I, I, I, I];
    assert Gather(stabs[0], qubits) == g;
    assert NonTrivial(g) by { assert g[0] != I; }
    assert stabs[..0] == [];
  }

  /** The same failure for any single tracked generator that is not the
      identity on `qubits` but acts on a qubit `p` outside them: its
      restriction is the whole group, and the expansion of that restriction
      has identity at `p`, so it is not the tracked generator. */
  lemma OneSpanningGeneratorDefeatsRetrack(s: PString, n: nat, qubits: seq<nat>, images: seq<PString>, p: nat)
    requires |s| == n && InRange(qubits, n) && NoDuplicates(qubits) && NonTrivial(Gather(s, qubits))
    requires Covers([s], qubits) && |images| == |Group([s], qubits)|
    requires p < n && p !in qubits && s[p] != I
    ensures Group([s], qubits) == [Gather(s, qubits)]
    ensures Retracked([s], n, qubits, Group([s], qubits), images).None?
  {
    var g := Gather(s, qubits);
    assert [s][..0] == [];
    ExpandRestrict(n, g, qubits);
    assert Expand(n, g, qubits)[p] == I;
    RetrackedSnoc([s], n, qubits, [g], images, 0);
    assert [g][..1] == [g] && images[..1] == images;
  }

  /** The evidently intended update: every tracked generator that is not
      the identity on `qubits` has those positions overwritten by its image
      (`images[j]` is the gate's image of `stabs[j]` restricted to
      `qubits`), keeping every other position; collisions are merged as in
      a set. */
  function Conjugated(stabs: seq<PString>, qubits: seq<nat>, images: seq<PString>): seq<PString>
    requires |images| == |stabs| && Covers(stabs, qubits)
    decreases |stabs|
  {
    if stabs == [] then []
    else
      var m := |stabs| - 1;
      assert Covers(stabs[..m], qubits);
      SetAdd(Conjugated(stabs[..m], qubits, images[..m]), ConjugateOne(stabs[m], qubits, images[m]))
  }

  /** The new version of one tracked generator. */
  function ConjugateOne(s: PString, qubits: seq<nat>, image: PString): (r: PString)
    requires InRange(qubits, |s|)
    ensures |r| == |s|
  {
    if NonTrivial(Gather(s, qubits)) then Assign(s, qubits[..Min(|qubits|, |image|)], image[..Min(|qubits|, |image|)]) else s
  }

  /** The loop of the corrected update: the new version of each tracked
      generator, in order, each kept once. */
  method ConjugateAll(stabs: seq<PString>, qubits: seq<nat>, images: seq<PString>) returns (result: seq<PString>)
    requires |images| == |stabs| && Covers(stabs, qubits)
    ensures result == Conjugated(stabs, qubits, images)
  {
    result := [];
    var j := 0;
    while j < |stabs|
      invariant 0 <= j <= |stabs| && Covers(stabs[..j], qubits)
      invariant result == Conjugated(stabs[..j], qubits, images[..j])
    {
      assert stabs[..j + 1][..j] == stabs[..j] && images[..j + 1][..j] == images[..j];
      result := SetAdd(result, ConjugateOne(stabs[j], qubits, images[j]));
      j := j + 1;
    }
    assert stabs[..j] == stabs && images[..j] == images;
  }

  /** The corrected update never fails and tracks no generator twice. */
  lemma {:induction false} ConjugatedNoDuplicates(stabs: seq<PString>, qubits: seq<nat>, images: seq<PString>)
    requires |images| == |stabs| && Covers(stabs, qubits)
    ensures NoDuplicates(Conjugated(stabs, qubits, images))
    decreases |stabs|
  {
    if stabs != [] {
      var m := |stabs| - 1;
      assert Covers(stabs[..m], qubits);
      ConjugatedNoDuplicates(stabs[..m], qubits, images[..m]);
      var prev := Conjugated(stabs[..m], qubits, images[..m]);
      var y0 := ConjugateOne(stabs[m], qubits, images[m]);
      if y0 !in prev {
        forall a, b | 0 <= a < b < |prev + [y0]| ensures (prev + [y0])[a] != (prev + [y0])[b] {
          if b == |prev| {
            assert (prev + [y0])[a] == prev[a];
          }
        }
      }
    }
  }

  /** The new version of every tracked generator is tracked after the
      corrected update. */
  lemma {:induction false} ConjugatedHasEach(stabs: seq<PString>, qubits: seq<nat>, images: seq<PString>)
    requires |images| == |stabs| && Covers(stabs, qubits)
    ensures forall j :: 0 <= j < |stabs| ==> ConjugateOne(stabs[j], qubits, images[j]) in Conjugated(stabs, qubits, images)
    decreases |stabs|
  {
    if stabs != [] {
      var m := |stabs| - 1;
      assert Covers(stabs[..m], qubits);
      ConjugatedHasEach(stabs[..m], qubits, images[..m]);
      forall j | 0 <= j < m
        ensures ConjugateOne(stabs[j], qubits, images[j]) in Conjugated(stabs, qubits, images)
      {
        assert stabs[..m][j] == stabs[j] && images[..m][j] == images[j];
      }
    }
  }

  /** Only new versions of tracked generators are tracked after the
      corrected update. */
  lemma {:induction false} ConjugatedOnlyImages(stabs: seq<PString>, qubits: seq<nat>, images: seq<PString>)
    requires |images| == |stabs| && Covers(stabs, qubits)
    ensures forall y :: y in Conjugated(stabs, qubits, images) ==>
              exists j :: 0 <= j < |stabs| && y == ConjugateOne(stabs[j], qubits, images[j])
    decreases |stabs|
  {
    if stabs != [] {
      var m := |stabs| - 1;
      assert Covers(stabs[..m], qubits);
      ConjugatedOnlyImages(stabs[..m], qubits, images[..m]);
      var prev := Conjugated(stabs[..m], qubits, images[..m]);
      forall y | y in Conjugated(stabs, qubits, images)
        ensures exists j :: 0 <= j < |stabs| && y == ConjugateOne(stabs[j], qubits, images[j])
      {
        if y in prev {
          var j :| 0 <= j < m && y == ConjugateOne(stabs[..m][j], qubits, images[..m][j]);
          assert stabs[..m][j] == stabs[j] && images[..m][j] == images[j];
        } else {
          assert y == ConjugateOne(stabs[m], qubits, images[m]);
        }
      }
    }
  }

  /** Every generator tracked after the corrected update has the length of
      the tracked generators. */
  lemma ConjugatedLengths(stabs: seq<PString>, qubits: seq<nat>, images: seq<PString>, n: nat)
    requires |images| == |stabs| && Covers(stabs, qubits)
    requires forall j :: 0 <= j < |stabs| ==> |stabs[j]| == n
    ensures forall i :: 0 <= i < |Conjugated(stabs, qubits, images)| ==> |Conjugated(stabs, qubits, images)[i]| == n
  {
    ConjugatedOnlyImages(stabs, qubits, images);
    var r := Conjugated(stabs, qubits, images);
    forall i | 0 <= i < |r| ensures |r[i]| == n {
      assert r[i] in r;
      var k :| 0 <= k < |stabs| && r[i] == ConjugateOne(stabs[k], qubits, images[k]);
    }
  }

  /** With distinct qubits and a block-length image, the new version holds
      the image on the block and the old generator elsewhere. */
  lemma ConjugateOneSpec(s: PString, qubits: seq<nat>, image: PString)
    requires InRange(qubits, |s|) && NoDuplicates(qubits) && |image| == |qubits|
    requires NonTrivial(Gather(s, qubits))
    ensures Gather(ConjugateOne(s, qubits, image), qubits) == image
    ensures forall j :: 0 <= j < |s| && j !in qubits ==> ConjugateOne(s, qubits, image)[j] == s[j]
  {
    assert qubits[..|qubits|] == qubits && image[..|image|] == image;
    AssignSpec(s, qubits, image);
  }

  // ---------------------------------------------------------------------
  // gadget_with_error_correction

  function QubitTargets(qubits: seq<nat>): (r: seq<Target>)
    ensures |r| == |qubits| && forall i :: 0 <= i < |qubits| ==> r[i] == QubitId(qubits[i])
  {
    seq(|qubits|, i requires 0 <= i < |qubits| => QubitId(qubits[i]))
  }

  /** The instruction `name` on the given qubits. */
  function Op(name: string, qubits: seq<nat>, parameters: PString): Element {
    Instruction(name, Some(QubitTargets(qubits)), parameters)
  }

  /** The single-qubit instruction `name` once on each qubit. */
  function PerQubit(name: string, qubits: seq<nat>): (r: seq<Element>)
    ensures |r| == |qubits| && forall i :: 0 <= i < |qubits| ==> r[i] == Op(name, [qubits[i]], [])
  {
    seq(|qubits|, i requires 0 <= i < |qubits| => Op(name, [qubits[i]], []))
  }

  /** The two-qubit instruction `name` on `a[i], b[i]` for each `i`. */
  function Pairwise(name: string, a: seq<nat>, b: seq<nat>): (r: seq<Element>)
    requires |a| == |b|
    ensures |r| == |a| && forall i :: 0 <= i < |a| ==> r[i] == Op(name, [a[i], b[i]], [])
  {
    seq(|a|, i requires 0 <= i < |a| => Op(name, [a[i], b[i]], []))
  }

  /** The targets of the instructions, one after the other. */
  function TargetsOf(insts: seq<Element>): seq<Target> {
    if insts == [] then []
    else TargetsOf(insts[..|insts| - 1]) + (match insts[|insts| - 1]
      case Instruction(_, Some(ts), _) => ts
      case _ => [])
  }

  /** The transversal layers touch exactly the given qubits, in order:
      `PerQubit` targets `qubits`, `Pairwise` targets `a[0], b[0], a[1],
      b[1], …`; so over distinct qubits no qubit is touched twice. */
  lemma TransversalTargets(name: string, qubits: seq<nat>, a: seq<nat>, b: seq<nat>)
    requires |a| == |b|
    ensures TargetsOf(PerQubit(name, qubits)) == QubitTargets(qubits)
    ensures var ts := TargetsOf(Pairwise(name, a, b));
      |ts| == 2 * |a| && forall i :: 0 <= i < |a| ==> ts[2 * i] == QubitId(a[i]) && ts[2 * i + 1] == QubitId(b[i])
  {
    PerQubitTargets(name, qubits);
    PairwiseTargets(name, a, b);
  }

  lemma {:induction false} PerQubitTargets(name: string, qubits: seq<nat>)
    ensures TargetsOf(PerQubit(name, qubits)) == QubitTargets(qubits)
    decreases |qubits|
  {
    if qubits != [] {
      var m := |qubits| - 1;
      assert PerQubit(name, qubits)[..m] == PerQubit(name, qubits[..m]);
      PerQubitTargets(name, qubits[..m]);
      assert QubitTargets(qubits) == QubitTargets(qubits[..m]) + [QubitId(qubits[m])];
    }
  }

  lemma {:induction false} PairwiseTargets(name: string, a: seq<nat>, b: seq<nat>)
    requires |a| == |b|
    ensures var ts := TargetsOf(Pairwise(name, a, b));
      |ts| == 2 * |a| && forall i :: 0 <= i < |a| ==> ts[2 * i] == QubitId(a[i]) && ts[2 * i + 1] == QubitId(b[i])
    decreases |a|
  {
    if a != [] {
      var m := |a| - 1;
      var p := Pairwise(name, a, b);
      assert p[..m] == Pairwise(name, a[..m], b[..m]);
      PairwiseTargets(name, a[..m], b[..m]);
      var rest := TargetsOf(p[..m]);
      assert TargetsOf(p) == rest + [QubitId(a[m]), QubitId(b[m])];
    }
  }

  /** One `Tick` and one `mpp` measurement per generator, generator `k`
      into register `first + k`. */
  function Extraction(first: nat, group: seq<PString>, qubits: seq<nat>): (r: seq<Element>)
    decreases |group|
  {
    if group == [] then []
    else
      var m := |group| - 1;
      Extraction(first, group[..m], qubits) +
      [Tick, Instruction(MppName, Some([RegisterId(first + m)] + QubitTargets(qubits)), group[m])]
  }

  /** Two elements per generator: at `2k` a tick, at `2k + 1` the
      measurement of generator `k` into register `first + k` over the
      block. */
  lemma {:induction false} ExtractionShape(first: nat, group: seq<PString>, qubits: seq<nat>)
    ensures |Extraction(first, group, qubits)| == 2 * |group|
    ensures forall k :: 0 <= k < |group| ==>
              Extraction(first, group, qubits)[2 * k] == Tick &&
              Extraction(first, group, qubits)[2 * k + 1] ==
                Instruction(MppName, Some([RegisterId(first + k)] + QubitTargets(qubits)), group[k])
    decreases |group|
  {
    if group != [] {
      var m := |group| - 1;
      ExtractionShape(first, group[..m], qubits);
      var pre := Extraction(first, group[..m], qubits);
      var e := Extraction(first, group, qubits);
      assert e == pre + [Tick, Instruction(MppName, Some([RegisterId(first + m)] + QubitTargets(qubits)), group[m])];
      forall k | 0 <= k < m
        ensures e[2 * k] == Tick && e[2 * k + 1] == Instruction(MppName, Some([RegisterId(first + k)] + QubitTargets(qubits)), group[k])
      {
        assert group[..m][k] == group[k];
        assert e[2 * k] == pre[2 * k] && e[2 * k + 1] == pre[2 * k + 1];
      }
    }
  }

  function Range(first: nat, count: nat): (r: seq<nat>)
    ensures |r| == count && forall k :: 0 <= k < count ==> r[k] == first + k
  {
    seq(count, k => first + k)
  }

  /** The gadget `gadget_with_error_correction` returns, given the tracker
      and tables it leaves and the first register it allocated. */
  function WithCorrection(name: string, instructions: seq<Element>, qubits: seq<nat>, first: nat,
                          stabs: seq<PString>, tables: map<seq<PString>, Table>, abort: bool): Gadget
    requires Covers(stabs, qubits) && Group(stabs, qubits) in tables
  {
    var group := Group(stabs, qubits);
    Gadget(name, instructions + Extraction(first, group, qubits),
           Some(Correct(qubits, Range(first, |group|), group, tables[group], abort)))
  }

  /** `gadget_with_error_correction`: after `instructions`, measures each
      generator of the block's group into a fresh register, and attaches
      the syndrome decoder over those registers. */
  method GadgetWithErrorCorrection(name: string, instructions: seq<Element>, qubits: seq<nat>, ctx: Context, abort: bool)
    returns (g: Gadget)
    requires ctx.Valid() && InRange(qubits, ctx.qubitCount)
    modifies ctx
    ensures ctx.Valid() && Covers(ctx.stabilizers, qubits) && Group(ctx.stabilizers, qubits) in ctx.tables
    ensures ctx.stabilizers == old(ctx.stabilizers) && ctx.blocks == old(ctx.blocks)
    ensures ctx.registerCount == old(ctx.registerCount) + |Group(ctx.stabilizers, qubits)|
    ensures g == WithCorrection(name, instructions, qubits, old(ctx.registerCount), ctx.stabilizers, ctx.tables, abort)
    ensures ProperTable(g.decoder.value.table, |qubits|)
    ensures forall key :: key in old(ctx.tables) ==> key in ctx.tables && ctx.tables[key] == old(ctx.tables)[key]
  {
    var group := ctx.FindStabilizerGroup(qubits);
    var first := ctx.registerCount;
    var registers := NewRegisters(ctx, |group|);
    var circuit := AppendExtraction(instructions, first, registers, group, qubits);
    var d := ctx.BuildDecoder(qubits, registers, abort);
    g := Gadget(name, circuit, Some(d));
  }

  /** `[context.new_register() for i in range(count)]`. */
  method NewRegisters(ctx: Context, count: nat) returns (registers: seq<nat>)
    requires ctx.Valid()
    modifies ctx
    ensures ctx.Valid() && ctx.stabilizers == old(ctx.stabilizers) && ctx.blocks == old(ctx.blocks)
    ensures ctx.tables == old(ctx.tables)
    ensures registers == Range(old(ctx.registerCount), count)
    ensures ctx.registerCount == old(ctx.registerCount) + count
  {
    registers := [];
    while |registers| < count
      invariant ctx.Valid() && ctx.stabilizers == old(ctx.stabilizers) && ctx.blocks == old(ctx.blocks)
      invariant ctx.tables == old(ctx.tables)
      invariant |registers| <= count
      invariant registers == Range(old(ctx.registerCount), |registers|)
      invariant ctx.registerCount == old(ctx.registerCount) + |registers|
      decreases count - |registers|
    {
      var r := ctx.NewRegister();
      registers := registers + [r];
    }
  }

  /** The loop appending a tick and a measurement per generator. */
  method AppendExtraction(instructions: seq<Element>, first: nat, registers: seq<nat>, group: seq<PString>, qubits: seq<nat>)
    returns (circuit: seq<Element>)
    requires registers == Range(first, |group|)
    ensures circuit == instructions + Extraction(first, group, qubits)
  {
    circuit := instructions;
    var k := 0;
    while k < |group|
      invariant 0 <= k <= |group|
      invariant circuit == instructions + Extraction(first, group[..k], qubits)
    {
      assert group[..k + 1][..k] == group[..k];
      circuit := circuit + [Tick, Instruction(MppName, Some([RegisterId(registers[k])] + QubitTargets(qubits)), group[k])];
      k := k + 1;
    }
    assert group[..k] == group;
  }
}
