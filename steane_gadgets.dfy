/** Gadgets of the Steane [[7,1,3]] code on the shared stabilizer context:
    each logical qubit is a block of seven physical qubits with three X and
    three Z generators on the supports of the [7,4] Hamming code's checks. */
module SteaneGadgets {
  import opened Wrappers
  import opened Paulis
  import opened Circuit
  import opened LookupTables
  import opened Decoders
  import opened Stabilizers

  /** The six generators `prepare_zero` tracks, in the order it adds them:
      X on {0,3,4,5}, {1,3,5,6}, {2,4,5,6}, then Z on the same supports. */
  const Generators: seq<PString> := [
    [X, I, I, X, X, X, I],
    [I, X, I, X, I, X, X],
    [I, I, X, I, X, X, X],
    [Z, I, I, Z, Z, Z, I],
    [I, Z, I, Z, I, Z, Z],
    [I, I, Z, I, Z, Z, Z]
  ]
  /** The logical X applied by the `x` gadget: X on qubits 3, 4 and 6. */
  const LogicalX: PString := [I, I, I, X, X, I, X]
  /** The operator `measure_z` measures and corrects against. */
  const ZOp: PString := [I, Z, Z, I, I, I, Z]

  /** The context: seven physical qubits per logical qubit. The lookup
      distance is a parameter, since the source passes none. */
  method NewContext(qubitCount: nat, registerCount: nat, distance: nat) returns (ctx: Context)
    ensures fresh(ctx) && ctx.Valid() && ctx.blockSize == 7 && ctx.distance == distance
    ensures ctx.qubitCount == qubitCount * 7 && ctx.registerCount == registerCount
    ensures ctx.stabilizers == [] && ctx.tables == map[] && ctx.blocks == BlockMap(qubitCount, 7)
    ensures forall i :: i in ctx.blocks ==> i < qubitCount
    ensures forall i :: 0 <= i < qubitCount ==>
              i in ctx.blocks && forall j :: 0 <= j < 7 ==> ctx.blocks[i][j] == 7 * i + j
  {
    ctx := new Context.Blocks(qubitCount, 7, registerCount, distance);
  }

  /** The tracker after adding `gens[0]`, `gens[1]`, ... over `qubits`. */
  function AddedAll(stabs: seq<PString>, n: nat, gens: seq<PString>, qubits: seq<nat>): seq<PString>
    requires InRange(qubits, n)
    decreases |gens|
  {
    if gens == [] then stabs
    else SetAdd(AddedAll(stabs, n, gens[..|gens| - 1], qubits), Expand(n, gens[|gens| - 1], qubits))
  }

  /** The encoder's eleven CX gates, as control and target positions in
      the block. */
  const EncoderControls: seq<nat> := [6, 6, 0, 0, 0, 1, 1, 1, 2, 2, 2]
  const EncoderTargets: seq<nat> := [3, 4, 3, 4, 5, 3, 5, 6, 4, 5, 6]

  /** The preparation circuit: reset all seven qubits, H on the first
      three, then the eleven CX of the encoder. */
  function PrepareCircuit(q: seq<nat>): (r: seq<Element>)
    requires |q| == 7
    ensures |r| == 21
    ensures r[..7] == PerQubit(PrepareZeroName, q) && r[7..10] == PerQubit(HName, q[..3])
    ensures forall k :: 0 <= k < 11 ==> r[10 + k] == Op(CxName, [q[EncoderControls[k]], q[EncoderTargets[k]]], [])
  {
    PerQubit(PrepareZeroName, q) + PerQubit(HName, q[..3]) +
    Pairwise(CxName, Gather(q, EncoderControls), Gather(q, EncoderTargets))
  }

  /** A string on the block after the encoder's CX gates `i` .. `k - 1`. */
  function EncoderCx(g: PString, i: nat, k: nat): (r: PString)
    requires |g| == 7 && i <= k <= 11
    ensures |r| == 7
    decreases k - i
  {
    if k == i then g else CxAt(EncoderCx(g, i, k - 1), EncoderControls[k - 1], EncoderTargets[k - 1])
  }

  /** Running the gates `i .. m - 1` and then `m .. k - 1` runs `i .. k - 1`. */
  lemma {:induction false} EncoderCxCompose(g: PString, i: nat, m: nat, k: nat)
    requires |g| == 7 && i <= m <= k <= 11
    ensures EncoderCx(g, i, k) == EncoderCx(EncoderCx(g, i, m), m, k)
    decreases k - m
  {
    if k > m {
      EncoderCxCompose(g, i, m, k - 1);
    }
  }

  /** A string on the block carried through the encoder's gates: H on the
      first three qubits, then the eleven CX. */
  function EncoderImage(g: PString): PString
    requires |g| == 7
  {
    EncoderCx(HAt(HAt(HAt(g, 0), 1), 2), 0, 11)
  }

  /** Z on one qubit of the block: after the resets each is a stabilizer. */
  function ZOn(i: nat): (r: PString)
    ensures |r| == 7
  {
    seq(7, j => if j == i then Z else I)
  }

  // The encoder's image of Z on each of the qubits 0 to 5: after the H
  // gates, CX gates 0 to 3, 4 to 7 and 8 to 10 in turn.

  /** Three runs of gates, one after the other. */
  lemma EncoderCxThrough(g: PString, g4: PString, g8: PString, g11: PString)
    requires |g| == 7 && EncoderCx(g, 0, 4) == g4 && EncoderCx(g4, 4, 8) == g8 && EncoderCx(g8, 8, 11) == g11
    ensures EncoderCx(g, 0, 11) == g11
  {
    EncoderCxCompose(g, 0, 4, 11);
    EncoderCxCompose(g4, 4, 8, 11);
  }

  /** What CX gates 0 to 3 do to the strings the H layer leaves from Z on qubits
      0 to 2. */
  lemma EncoderFirstRunX()
    ensures EncoderCx([X, I, I, I, I, I, I], 0, 4) == [X, I, I, X, X, I, I]
    ensures EncoderCx([I, X, I, I, I, I, I], 0, 4) == [I, X, I, I, I, I, I]
    ensures EncoderCx([I, I, X, I, I, I, I], 0, 4) == [I, I, X, I, I, I, I]
  {
  }

  /** What CX gates 0 to 3 do to the strings the H layer leaves from Z on qubits
      3 to 5. */
  lemma EncoderFirstRunZ()
    ensures EncoderCx([I, I, I, Z, I, I, I], 0, 4) == [Z, I, I, Z, I, I, Z]
    ensures EncoderCx([I, I, I, I, Z, I, I], 0, 4) == [Z, I, I, I, Z, I, Z]
    ensures EncoderCx([I, I, I, I, I, Z, I], 0, 4) == [I, I, I, I, I, Z, I]
  {
  }

  /** What CX gates 4 to 7 do to the strings the H layer leaves from Z on qubits
      0 to 2. */
  lemma EncoderMiddleRunX()
    ensures EncoderCx([X, I, I, X, X, I, I], 4, 8) == [X, I, I, X, X, X, I]
    ensures EncoderCx([I, X, I, I, I, I, I], 4, 8) == [I, X, I, X, I, X, X]
    ensures EncoderCx([I, I, X, I, I, I, I], 4, 8) == [I, I, X, I, I, I, I]
  {
  }

  /** What CX gates 4 to 7 do to the strings the H layer leaves from Z on qubits
      3 to 5. */
  lemma EncoderMiddleRunZ()
    ensures EncoderCx([Z, I, I, Z, I, I, Z], 4, 8) == [Z, I, I, Z, I, I, Z]
    ensures EncoderCx([Z, I, I, I, Z, I, Z], 4, 8) == [Z, Z, I, I, Z, I, Z]
    ensures EncoderCx([I, I, I, I, I, Z, I], 4, 8) == [Z, Z, I, I, I, Z, I]
  {
  }

  /** What CX gates 8 to 10 do to the strings the H layer leaves from Z on qubits
      0 to 2. */
  lemma EncoderLastRunX()
    ensures EncoderCx([X, I, I, X, X, X, I], 8, 11) == [X, I, I, X, X, X, I]
    ensures EncoderCx([I, X, I, X, I, X, X], 8, 11) == [I, X, I, X, I, X, X]
    ensures EncoderCx([I, I, X, I, I, I, I], 8, 11) == [I, I, X, I, X, X, X]
  {
  }

  /** What CX gates 8 to 10 do to the strings the H layer leaves from Z on qubits
      3 to 5. */
  lemma EncoderLastRunZ()
    ensures EncoderCx([Z, I, I, Z, I, I, Z], 8, 11) == [Z, I, Z, Z, I, I, Z]
    ensures EncoderCx([Z, Z, I, I, Z, I, Z], 8, 11) == [Z, Z, I, I, Z, I, Z]
    ensures EncoderCx([Z, Z, I, I, I, Z, I], 8, 11) == [Z, Z, Z, I, I, Z, I]
  {
  }

  lemma EncoderCarriesZ0()
    ensures EncoderImage(ZOn(0)) == [X, I, I, X, X, X, I]
  {
    assert HAt(HAt(HAt(ZOn(0), 0), 1), 2) == [X, I, I, I, I, I, I];
    EncoderFirstRunX();
    EncoderMiddleRunX();
    EncoderLastRunX();
    EncoderCxThrough([X, I, I, I, I, I, I], [X, I, I, X, X, I, I], [X, I, I, X, X, X, I], [X, I, I, X, X, X, I]);
  }

  lemma EncoderCarriesZ1()
    ensures EncoderImage(ZOn(1)) == [I, X, I, X, I, X, X]
  {
    assert HAt(HAt(HAt(ZOn(1), 0), 1), 2) == [I, X, I, I, I, I, I];
    EncoderFirstRunX();
    EncoderMiddleRunX();
    EncoderLastRunX();
    EncoderCxThrough([I, X, I, I, I, I, I], [I, X, I, I, I, I, I], [I, X, I, X, I, X, X], [I, X, I, X, I, X, X]);
  }

  lemma EncoderCarriesZ2()
    ensures EncoderImage(ZOn(2)) == [I, I, X, I, X, X, X]
  {
    assert HAt(HAt(HAt(ZOn(2), 0), 1), 2) == [I, I, X, I, I, I, I];
    EncoderFirstRunX();
    EncoderMiddleRunX();
    EncoderLastRunX();
    EncoderCxThrough([I, I, X, I, I, I, I], [I, I, X, I, I, I, I], [I, I, X, I, I, I, I], [I, I, X, I, X, X, X]);
  }

  lemma EncoderCarriesZ3()
    ensures EncoderImage(ZOn(3)) == [Z, I, Z, Z, I, I, Z]
  {
    assert HAt(HAt(HAt(ZOn(3), 0), 1), 2) == [I, I, I, Z, I, I, I];
    EncoderFirstRunZ();
    EncoderMiddleRunZ();
    EncoderLastRunZ();
    EncoderCxThrough([I, I, I, Z, I, I, I], [Z, I, I, Z, I, I, Z], [Z, I, I, Z, I, I, Z], [Z, I, Z, Z, I, I, Z]);
  }

  lemma EncoderCarriesZ4()
    ensures EncoderImage(ZOn(4)) == [Z, Z, I, I, Z, I, Z]
  {
    assert HAt(HAt(HAt(ZOn(4), 0), 1), 2) == [I, I, I, I, Z, I, I];
    EncoderFirstRunZ();
    EncoderMiddleRunZ();
    EncoderLastRunZ();
    EncoderCxThrough([I, I, I, I, Z, I, I], [Z, I, I, I, Z, I, Z], [Z, Z, I, I, Z, I, Z], [Z, Z, I, I, Z, I, Z]);
  }

  lemma EncoderCarriesZ5()
    ensures EncoderImage(ZOn(5)) == [Z, Z, Z, I, I, Z, I]
  {
    assert HAt(HAt(HAt(ZOn(5), 0), 1), 2) == [I, I, I, I, I, Z, I];
    EncoderFirstRunZ();
    EncoderMiddleRunZ();
    EncoderLastRunZ();
    EncoderCxThrough([I, I, I, I, I, Z, I], [I, I, I, I, I, Z, I], [Z, Z, I, I, I, Z, I], [Z, Z, Z, I, I, Z, I]);
  }

  /** The encoder prepares the code the gadget tracks: it carries Z on
      qubits 0, 1 and 2 to the three X generators, and products of the
      images of Z on qubits 3, 4 and 5 are the three Z generators; so every
      tracked generator stabilizes the prepared block. */
  lemma EncoderPreparesCode()
    ensures EncoderImage(ZOn(0)) == Generators[0]
    ensures EncoderImage(ZOn(1)) == Generators[1]
    ensures EncoderImage(ZOn(2)) == Generators[2]
    ensures var p := Products(EncoderImage(ZOn(3)), EncoderImage(ZOn(4)));
      p.Some? && Products(p.value, EncoderImage(ZOn(5))) == Some(Generators[3])
    ensures Products(EncoderImage(ZOn(3)), EncoderImage(ZOn(5))) == Some(Generators[4])
    ensures Products(EncoderImage(ZOn(4)), EncoderImage(ZOn(5))) == Some(Generators[5])
  {
    EncoderCarriesZ0();
    EncoderCarriesZ1();
    EncoderCarriesZ2();
    EncoderCarriesZ3();
    EncoderCarriesZ4();
    EncoderCarriesZ5();
    assert Mul(Z, Z) == Some(I) && Mul(Z, I) == Some(Z) && Mul(I, Z) == Some(Z) && Mul(I, I) == Some(I);
    ProductIs([Z, I, Z, Z, I, I, Z], [Z, Z, I, I, Z, I, Z], [I, Z, Z, Z, Z, I, I]);
    ProductIs([I, Z, Z, Z, Z, I, I], [Z, Z, Z, I, I, Z, I], Generators[3]);
    ProductIs([Z, I, Z, Z, I, I, Z], [Z, Z, Z, I, I, Z, I], Generators[4]);
    ProductIs([Z, Z, I, I, Z, I, Z], [Z, Z, Z, I, I, Z, I], Generators[5]);
  }

  /** Elementwise products on a block that are all defined give the
      string of them. */
  lemma ProductIs(a: PString, b: PString, c: PString)
    requires |a| == |b| == |c| == 7
    requires Mul(a[0], b[0]) == Some(c[0]) && Mul(a[1], b[1]) == Some(c[1]) && Mul(a[2], b[2]) == Some(c[2])
    requires Mul(a[3], b[3]) == Some(c[3]) && Mul(a[4], b[4]) == Some(c[4]) && Mul(a[5], b[5]) == Some(c[5])
    requires Mul(a[6], b[6]) == Some(c[6])
    ensures Products(a, b) == Some(c)
  {
    assert forall i :: 0 <= i < 7 ==> Mul(a[i], b[i]) == Some(c[i]);
    var r := Products(a, b);
    assert r.Some?;
    assert forall i :: 0 <= i < |a| ==> r.value[i] == c[i];
    assert r.value == c;
  }

  /** `prepare_zero`: tracks the six generators on the block, emits the
      encoder, then extracts the syndrome. */
  method PrepareZero(inst: Element, ctx: Context) returns (r: Result<Gadget>)
    requires ctx.Valid() && ctx.blockSize == 7
    modifies ctx
    ensures ctx.Valid() && ctx.blocks == old(ctx.blocks)
    ensures r.Ok? <==> LookupBlock(old(ctx.blocks), TargetAt(inst, 0)).Some?
    ensures r.Err? ==> ctx.stabilizers == old(ctx.stabilizers) && ctx.registerCount == old(ctx.registerCount)
    ensures r.Ok? ==>
              var qubits := LookupBlock(old(ctx.blocks), TargetAt(inst, 0)).value;
              ctx.stabilizers == AddedAll(old(ctx.stabilizers), ctx.qubitCount, Generators, qubits) &&
              Covers(ctx.stabilizers, qubits) && Group(ctx.stabilizers, qubits) in ctx.tables &&
              ctx.registerCount == old(ctx.registerCount) + |Group(ctx.stabilizers, qubits)| &&
              r.value == WithCorrection(PrepareZeroName, PrepareCircuit(qubits), qubits,
                                        old(ctx.registerCount), ctx.stabilizers, ctx.tables, false)
  {
    var block := LookupBlock(ctx.blocks, TargetAt(inst, 0));
    if block.None? {
      return Err("KeyError: no block for the target");
    }
    var qubits := block.value;
    TrackGenerators(ctx, qubits);
    var g := GadgetWithErrorCorrection(PrepareZeroName, PrepareCircuit(qubits), qubits, ctx, false);
    r := Ok(g);
  }

  /** The loop of `prepare_zero` that adds the six generators to the
      tracker, in order. */
  method TrackGenerators(ctx: Context, qubits: seq<nat>)
    requires ctx.Valid() && InRange(qubits, ctx.qubitCount)
    modifies ctx
    ensures ctx.Valid() && ctx.blocks == old(ctx.blocks) && ctx.registerCount == old(ctx.registerCount)
    ensures ctx.tables == old(ctx.tables)
    ensures ctx.stabilizers == AddedAll(old(ctx.stabilizers), ctx.qubitCount, Generators, qubits)
  {
    var k := 0;
    while k < |Generators|
      invariant 0 <= k <= |Generators|
      invariant ctx.Valid() && ctx.blocks == old(ctx.blocks) && ctx.registerCount == old(ctx.registerCount)
      invariant ctx.tables == old(ctx.tables)
      invariant ctx.stabilizers == AddedAll(old(ctx.stabilizers), ctx.qubitCount, Generators[..k], qubits)
    {
      assert Generators[..k + 1][..k] == Generators[..k];
      ctx.AddStabilizer(Generators[k], qubits);
      k := k + 1;
    }
    assert Generators[..k] == Generators;
  }

  /** `x`: X on qubits 3, 4 and 6 of the block, then syndrome extraction;
      the tracker is unchanged (see `LogicalOperators`). */
  method ApplyX(inst: Element, ctx: Context) returns (r: Result<Gadget>)
    requires ctx.Valid() && ctx.blockSize == 7
    modifies ctx
    ensures ctx.Valid() && ctx.blocks == old(ctx.blocks) && ctx.stabilizers == old(ctx.stabilizers)
    ensures r.Ok? <==> LookupBlock(old(ctx.blocks), TargetAt(inst, 0)).Some?
    ensures r.Err? ==> ctx.registerCount == old(ctx.registerCount)
    ensures r.Ok? ==>
              var q := LookupBlock(old(ctx.blocks), TargetAt(inst, 0)).value;
              Covers(ctx.stabilizers, q) && Group(ctx.stabilizers, q) in ctx.tables &&
              ctx.registerCount == old(ctx.registerCount) + |Group(ctx.stabilizers, q)| &&
              r.value == WithCorrection(XName, [Op(XName, [q[3]], []), Op(XName, [q[4]], []), Op(XName, [q[6]], [])], q,
                                        old(ctx.registerCount), ctx.stabilizers, ctx.tables, false)
  {
    var block := LookupBlock(ctx.blocks, TargetAt(inst, 0));
    if block.None? {
      return Err("KeyError: no block for the target");
    }
    var q := block.value;
    var g := GadgetWithErrorCorrection(XName, [Op(XName, [q[3]], []), Op(XName, [q[4]], []), Op(XName, [q[6]], [])], q, ctx, false);
    r := Ok(g);
  }

  /** `h`: transversal H, then syndrome extraction; the tracker is
      unchanged (see `TransversalHSwapsGenerators`). */
  method ApplyH(inst: Element, ctx: Context) returns (r: Result<Gadget>)
    requires ctx.Valid() && ctx.blockSize == 7
    modifies ctx
    ensures ctx.Valid() && ctx.blocks == old(ctx.blocks) && ctx.stabilizers == old(ctx.stabilizers)
    ensures r.Ok? <==> LookupBlock(old(ctx.blocks), TargetAt(inst, 0)).Some?
    ensures r.Err? ==> ctx.registerCount == old(ctx.registerCount)
    ensures r.Ok? ==>
              var q := LookupBlock(old(ctx.blocks), TargetAt(inst, 0)).value;
              Covers(ctx.stabilizers, q) && Group(ctx.stabilizers, q) in ctx.tables &&
              ctx.registerCount == old(ctx.registerCount) + |Group(ctx.stabilizers, q)| &&
              r.value == WithCorrection(HName, PerQubit(HName, q), q,
                                        old(ctx.registerCount), ctx.stabilizers, ctx.tables, false)
  {
    var block := LookupBlock(ctx.blocks, TargetAt(inst, 0));
    if block.None? {
      return Err("KeyError: no block for the target");
    }
    var q := block.value;
    var g := GadgetWithErrorCorrection(HName, PerQubit(HName, q), q, ctx, false);
    r := Ok(g);
  }

  /** The first `k` of the seven `by_cx(i, i + 7)` applied to a
      fourteen-qubit string. */
  function CxUpTo(g: PString, k: nat): PString
    requires |g| == 14 && k <= 7
    ensures |CxUpTo(g, k)| == 14
  {
    if k == 0 then g else CxAt(CxUpTo(g, k - 1), k - 1, k + 6)
  }

  /** All seven `by_cx(i, i + 7)` of the `cx` update. */
  function CxImage(g: PString): PString
    requires |g| == 14
  {
    CxUpTo(g, 7)
  }

  function CxImages(group: seq<PString>): (r: seq<PString>)
    requires AllLength(group, 14)
    ensures |r| == |group| && forall k :: 0 <= k < |group| ==> r[k] == CxImage(group[k])
  {
    seq(|group|, k requires 0 <= k < |group| => CxImage(group[k]))
  }

  /** The tracker after the `cx` gadget's update as written, or `None` for
      its `KeyError`. */
  function CxTracked(stabs: seq<PString>, n: nat, qubits: seq<nat>): Option<seq<PString>>
    requires InRange(qubits, n) && Covers(stabs, qubits) && |qubits| == 14
  {
    GroupLength(stabs, qubits);
    Retracked(stabs, n, qubits, Group(stabs, qubits), CxImages(Group(stabs, qubits)))
  }

  /** After the first `k` CX, each pair `(i, i + 7)` with `i < k` holds
      the control with `z ^= target z` and the target with `x ^= control
      x`, signs kept; the other pairs are untouched. */
  lemma {:induction false} CxUpToSpec(g: PString, k: nat)
    requires |g| == 14 && k <= 7
    ensures forall i :: 0 <= i < k ==>
              CxUpTo(g, k)[i] == Pauli(g[i].sign, g[i].x, g[i].z != g[i + 7].z) &&
              CxUpTo(g, k)[i + 7] == Pauli(g[i + 7].sign, g[i + 7].x != g[i].x, g[i + 7].z)
    ensures forall i :: k <= i < 7 || k + 7 <= i < 14 ==> CxUpTo(g, k)[i] == g[i]
  {
    if k > 0 {
      CxUpToSpec(g, k - 1);
      CxAtProperties(CxUpTo(g, k - 1), k - 1, k + 6);
    }
  }

  /** Transversal CX, as the seven `by_cx(i, i + 7)` compute it. */
  lemma CxImageTransversal(g: PString)
    requires |g| == 14
    ensures forall i :: 0 <= i < 7 ==>
              CxImage(g)[i] == Pauli(g[i].sign, g[i].x, g[i].z != g[i + 7].z) &&
              CxImage(g)[i + 7] == Pauli(g[i + 7].sign, g[i + 7].x != g[i].x, g[i + 7].z)
  {
    CxUpToSpec(g, 7);
  }

  /** `by_cx(i, i + 7)` for `i` in 0..6, rebinding the string. */
  method ConjugateCx(g: PString) returns (st: PString)
    requires |g| == 14
    ensures st == CxImage(g)
  {
    st := g;
    for i := 0 to 7
      invariant st == CxUpTo(g, i)
    {
      st := ByCx(st, i, i + 7);
    }
  }

  /** The tracker update of `cx` as written: remove, conjugate and add back
      each generator of the fourteen-qubit group in turn. */
  method RetrackCx(ctx: Context, qubits: seq<nat>) returns (ok: bool)
    requires ctx.Valid() && InRange(qubits, ctx.qubitCount) && |qubits| == 14
    modifies ctx
    ensures ctx.Valid() && ctx.blocks == old(ctx.blocks) && ctx.registerCount == old(ctx.registerCount)
    ensures ctx.tables == old(ctx.tables)
    ensures Covers(old(ctx.stabilizers), qubits)
    ensures ok <==> CxTracked(old(ctx.stabilizers), ctx.qubitCount, qubits).Some?
    ensures ok ==> ctx.stabilizers == CxTracked(old(ctx.stabilizers), ctx.qubitCount, qubits).value
  {
    var group := ctx.FindStabilizerGroup(qubits);
    GroupLength(ctx.stabilizers, qubits);
    var images := CxImages(group);
    var k := 0;
    while k < |group|
      invariant 0 <= k <= |group|
      invariant ctx.Valid() && ctx.blocks == old(ctx.blocks) && ctx.registerCount == old(ctx.registerCount)
      invariant ctx.tables == old(ctx.tables)
      invariant Retracked(old(ctx.stabilizers), ctx.qubitCount, qubits, group[..k], images[..k]) == Some(ctx.stabilizers)
    {
      var st := ConjugateCx(group[k]);
      assert st == images[k];
      ok := RetrackStep(ctx, old(ctx.stabilizers), qubits, group, images, k, st);
      if !ok {
        return;
      }
      k := k + 1;
    }
    assert group[..k] == group && images[..k] == images;
    ok := true;
  }

  /** `cx` as written: transversal CX, the tracker update above, then
      syndrome extraction over both blocks. */
  method ApplyCx(inst: Element, ctx: Context) returns (r: Result<Gadget>)
    requires ctx.Valid() && ctx.blockSize == 7
    modifies ctx
    ensures ctx.Valid() && ctx.blocks == old(ctx.blocks)
    ensures LookupBlock(old(ctx.blocks), TargetAt(inst, 0)).None? || LookupBlock(old(ctx.blocks), TargetAt(inst, 1)).None? ==>
              r.Err? && ctx.stabilizers == old(ctx.stabilizers)
    ensures LookupBlock(old(ctx.blocks), TargetAt(inst, 0)).Some? && LookupBlock(old(ctx.blocks), TargetAt(inst, 1)).Some? ==>
              var qubits := LookupBlock(old(ctx.blocks), TargetAt(inst, 0)).value + LookupBlock(old(ctx.blocks), TargetAt(inst, 1)).value;
              Covers(old(ctx.stabilizers), qubits) &&
              (r.Ok? <==> CxTracked(old(ctx.stabilizers), ctx.qubitCount, qubits).Some?) &&
              (r.Ok? ==>
                 ctx.stabilizers == CxTracked(old(ctx.stabilizers), ctx.qubitCount, qubits).value &&
                 Covers(ctx.stabilizers, qubits) && Group(ctx.stabilizers, qubits) in ctx.tables &&
                 ctx.registerCount == old(ctx.registerCount) + |Group(ctx.stabilizers, qubits)| &&
                 r.value == WithCorrection(CxName, Pairwise(CxName, qubits[..7], qubits[7..]), qubits,
                                           old(ctx.registerCount), ctx.stabilizers, ctx.tables, false))
  {
    var ctlBlock := LookupBlock(ctx.blocks, TargetAt(inst, 0));
    var tgtBlock := LookupBlock(ctx.blocks, TargetAt(inst, 1));
    if ctlBlock.None? || tgtBlock.None? {
      return Err("KeyError: no block for a target");
    }
    var ctl, tgt := ctlBlock.value, tgtBlock.value;
    var qubits := ctl + tgt;
    assert qubits[..7] == ctl && qubits[7..] == tgt;
    var ok := RetrackCx(ctx, qubits);
    if !ok {
      return Err("KeyError: a generator reaches outside the blocks");
    }
    var g := GadgetWithErrorCorrection(CxName, Pairwise(CxName, ctl, tgt), qubits, ctx, false);
    r := Ok(g);
  }

  /** The generator `X` on qubits 0 and 7, as a `cx` from block 0 into
      block 1 leaves the logical-`X` part of a spread error, over the
      twenty-one qubits of three blocks. */
  const SpreadX: PString := seq(21, i => if i == 0 || i == 7 then X else I)

  /** `cx` as written fails on it: a `cx` from block 0 into block 2 finds
      the generator's restriction to those blocks, whose expansion has
      identity on qubit 7 and is not tracked, so the removal raises
      `KeyError`. */
  lemma CxSpanningGeneratorFails()
    ensures var qubits := BlockOf(0, 7) + BlockOf(2, 7);
            InRange(qubits, 21) && Covers([SpreadX], qubits) &&
            CxTracked([SpreadX], 21, qubits).None?
  {
    var qubits := BlockOf(0, 7) + BlockOf(2, 7);
    OuterBlocks();
    assert |SpreadX| == 21 && SpreadX[0] == X && SpreadX[7] == X;
    var g := Gather(SpreadX, qubits);
    assert NonTrivial(g) by { assert g[0] == SpreadX[0]; }
    GroupLength([SpreadX], qubits);
    OneSpanningGeneratorDefeatsRetrack(SpreadX, 21, qubits, CxImages(Group([SpreadX], qubits)), 7);
  }

  /** On the same tracker the corrected update conjugates the generator in
      place: the CX copies its X on qubit 0 to qubit 14, and the X on qubit
      7, outside the two blocks, is kept. */
  lemma CxSpanningGeneratorCorrected()
    ensures var qubits := BlockOf(0, 7) + BlockOf(2, 7);
            Covers([SpreadX], qubits) &&
            Conjugated([SpreadX], qubits, CxImagesOf([SpreadX], qubits)) ==
              [seq(21, i => if i == 0 || i == 7 || i == 14 then X else I)]
  {
    var qubits := BlockOf(0, 7) + BlockOf(2, 7);
    OuterBlocks();
    SpreadXImage();
    var img := CxImage(Gather(SpreadX, qubits));
    SpreadXAssigned(img);
    var imgs := CxImagesOf([SpreadX], qubits);
    assert imgs == [img];
    assert [SpreadX][..0] == [] && imgs[..0] == [];
  }

  /** The restriction of SpreadX to blocks 0 and 2 has X on its first
      qubit only; its CX image has X on positions 0 and 7. */
  lemma SpreadXImage()
    ensures var g := Gather(SpreadX, BlockOf(0, 7) + BlockOf(2, 7));
            |g| == 14 && NonTrivial(g) &&
            forall i :: 0 <= i < 14 ==> CxImage(g)[i] == if i == 0 || i == 7 then X else I
  {
    var qubits := BlockOf(0, 7) + BlockOf(2, 7);
    OuterBlocks();
    var g := Gather(SpreadX, qubits);
    assert forall i :: 0 <= i < 14 ==> g[i] == SpreadX[qubits[i]];
    assert forall i :: 0 <= i < 14 ==> g[i] == if i == 0 then X else I;
    var img := CxImage(g);
    CxImageTransversal(g);
    forall i | 0 <= i < 14 ensures img[i] == if i == 0 || i == 7 then X else I {
      if i < 7 {
        assert img[i] == Pauli(g[i].sign, g[i].x, g[i].z != g[i + 7].z);
      } else {
        var k := i - 7;
        assert img[k + 7] == Pauli(g[k + 7].sign, g[k + 7].x != g[k].x, g[k + 7].z);
      }
    }
    assert NonTrivial(g) by { assert g[0] != I; }
  }

  /** Writing that image back on blocks 0 and 2 of SpreadX gives X on
      qubits 0, 7 and 14. */
  lemma SpreadXAssigned(img: PString)
    requires |img| == 14 && forall i :: 0 <= i < 14 ==> img[i] == if i == 0 || i == 7 then X else I
    ensures ConjugateOne(SpreadX, BlockOf(0, 7) + BlockOf(2, 7), img) ==
              seq(21, i => if i == 0 || i == 7 || i == 14 then X else I)
  {
    var qubits := BlockOf(0, 7) + BlockOf(2, 7);
    OuterBlocks();
    SpreadXImage();
    assert qubits[..14] == qubits && img[..14] == img;
    AssignSpec(SpreadX, qubits, img);
    var one := ConjugateOne(SpreadX, qubits, img);
    var want: PString := seq(21, i => if i == 0 || i == 7 || i == 14 then X else I);
    forall j | 0 <= j < 21 ensures one[j] == want[j] {
      if j < 7 {
        assert qubits[j] == j;
      } else if j < 14 {
        assert j !in qubits;
      } else {
        assert qubits[j - 7] == j;
      }
    }
    assert one == want;
  }

  /** Blocks 0 and 2 of three: distinct qubits below 21, qubits 0 to 6
      then 14 to 20, so qubit 7 is not among them. */
  lemma OuterBlocks()
    ensures var qubits := BlockOf(0, 7) + BlockOf(2, 7);
            InRange(qubits, 21) && NoDuplicates(qubits) && qubits[0] == 0 && 7 !in qubits &&
            |qubits| == 14 && forall i :: 0 <= i < 14 ==> qubits[i] == if i < 7 then i else i + 7
  {
    var qubits := BlockOf(0, 7) + BlockOf(2, 7);
    assert forall i :: 0 <= i < 7 ==> qubits[i] == i;
    assert forall i :: 7 <= i < 14 ==> qubits[i] == i + 7;
  }

  /** The images of every tracked generator's restriction to `qubits`. */
  function CxImagesOf(stabs: seq<PString>, qubits: seq<nat>): (r: seq<PString>)
    requires Covers(stabs, qubits) && |qubits| == 14
    ensures |r| == |stabs| && forall j :: 0 <= j < |stabs| ==> r[j] == CxImage(Gather(stabs[j], qubits))
  {
    seq(|stabs|, j requires 0 <= j < |stabs| => CxImage(Gather(stabs[j], qubits)))
  }

  /** `cx` with the evidently intended tracker update: each tracked
      generator that touches the two blocks is conjugated on them in place,
      so entanglement spread by an earlier `cx` is carried along. */
  method ApplyCxCorrected(inst: Element, ctx: Context) returns (r: Result<Gadget>)
    requires ctx.Valid() && ctx.blockSize == 7
    modifies ctx
    ensures ctx.Valid() && ctx.blocks == old(ctx.blocks)
    ensures r.Ok? <==> LookupBlock(old(ctx.blocks), TargetAt(inst, 0)).Some? && LookupBlock(old(ctx.blocks), TargetAt(inst, 1)).Some?
    ensures r.Err? ==> ctx.stabilizers == old(ctx.stabilizers) && ctx.registerCount == old(ctx.registerCount)
    ensures r.Ok? ==>
              var qubits := LookupBlock(old(ctx.blocks), TargetAt(inst, 0)).value + LookupBlock(old(ctx.blocks), TargetAt(inst, 1)).value;
              Covers(old(ctx.stabilizers), qubits) &&
              ctx.stabilizers == Conjugated(old(ctx.stabilizers), qubits, CxImagesOf(old(ctx.stabilizers), qubits)) &&
              Covers(ctx.stabilizers, qubits) && Group(ctx.stabilizers, qubits) in ctx.tables &&
              ctx.registerCount == old(ctx.registerCount) + |Group(ctx.stabilizers, qubits)| &&
              r.value == WithCorrection(CxName, Pairwise(CxName, qubits[..7], qubits[7..]), qubits,
                                        old(ctx.registerCount), ctx.stabilizers, ctx.tables, false)
  {
    var ctlBlock := LookupBlock(ctx.blocks, TargetAt(inst, 0));
    var tgtBlock := LookupBlock(ctx.blocks, TargetAt(inst, 1));
    if ctlBlock.None? || tgtBlock.None? {
      return Err("KeyError: no block for a target");
    }
    var ctl, tgt := ctlBlock.value, tgtBlock.value;
    var qubits := ctl + tgt;
    assert qubits[..7] == ctl && qubits[7..] == tgt;
    assert Covers(ctx.stabilizers, qubits);
    ctx.ConjugateTracked(qubits, CxImagesOf(ctx.stabilizers, qubits));
    var g := GadgetWithErrorCorrection(CxName, Pairwise(CxName, ctl, tgt), qubits, ctx, false);
    r := Ok(g);
  }

  /** `measure_z`: measures ZOp over the block into a fresh raw register;
      the decoder writes the corrected bit into the encoded register. */
  method MeasureZ(inst: Element, ctx: Context) returns (r: Result<Gadget>)
    requires ctx.Valid() && ctx.blockSize == 7
    modifies ctx
    ensures ctx.Valid() && ctx.blocks == old(ctx.blocks) && ctx.stabilizers == old(ctx.stabilizers)
    ensures ctx.tables == old(ctx.tables)
    ensures r.Ok? <==> LookupBlock(old(ctx.blocks), TargetAt(inst, 1)).Some? && RegisterOf(TargetAt(inst, 0)).Some?
    ensures r.Err? ==> ctx.registerCount == old(ctx.registerCount)
    ensures r.Ok? ==>
              var qubits := LookupBlock(old(ctx.blocks), TargetAt(inst, 1)).value;
              var raw := old(ctx.registerCount);
              ctx.registerCount == raw + 1 &&
              r.value == Gadget(ReadoutName, [Instruction(MppName, Some([RegisterId(raw)] + QubitTargets(qubits)), ZOp)],
                                Some(Readout(raw, RegisterOf(TargetAt(inst, 0)).value, qubits, ZOp, false)))
  {
    var block := LookupBlock(ctx.blocks, TargetAt(inst, 1));
    var encoded := RegisterOf(TargetAt(inst, 0));
    if block.None? || encoded.None? {
      return Err("no block for the target, or no register to write");
    }
    var qubits := block.value;
    var raw := ctx.NewRegister();
    var circuit := [Instruction(MppName, Some([RegisterId(raw)] + QubitTargets(qubits)), ZOp)];
    r := Ok(Gadget(ReadoutName, circuit, Some(Readout(raw, encoded.value, qubits, ZOp, false))));
  }

  // ---------------------------------------------------------------------
  // Why the gadgets are sound

  /** The anticommuting count of two seven-qubit strings, position by
      position. */
  lemma Count7(s: PString, e: PString)
    requires |s| == 7 && |e| == 7
    ensures AnticommutingUpTo(s, e, 7) ==
              (if Commutes(s[0], e[0]) then 0 else 1) + (if Commutes(s[1], e[1]) then 0 else 1) +
              (if Commutes(s[2], e[2]) then 0 else 1) + (if Commutes(s[3], e[3]) then 0 else 1) +
              (if Commutes(s[4], e[4]) then 0 else 1) + (if Commutes(s[5], e[5]) then 0 else 1) +
              (if Commutes(s[6], e[6]) then 0 else 1)
  {
    assert AnticommutingUpTo(s, e, 1) == (if Commutes(s[0], e[0]) then 0 else 1);
    assert AnticommutingUpTo(s, e, 2) == AnticommutingUpTo(s, e, 1) + (if Commutes(s[1], e[1]) then 0 else 1);
    assert AnticommutingUpTo(s, e, 3) == AnticommutingUpTo(s, e, 2) + (if Commutes(s[2], e[2]) then 0 else 1);
    assert AnticommutingUpTo(s, e, 4) == AnticommutingUpTo(s, e, 3) + (if Commutes(s[3], e[3]) then 0 else 1);
    assert AnticommutingUpTo(s, e, 5) == AnticommutingUpTo(s, e, 4) + (if Commutes(s[4], e[4]) then 0 else 1);
  }

  /** The six generators commute pairwise. */
  lemma GeneratorsCommute()
    ensures forall a, b :: 0 <= a < 6 && 0 <= b < 6 ==> SyndromeBit(Generators[a], Generators[b]) == 0
  {
    XGeneratorsCommute();
    ZGeneratorsCommute();
  }

  /** The three X generators commute with all six. */
  lemma XGeneratorsCommute()
    ensures forall a, b :: 0 <= a < 3 && 0 <= b < 6 ==> SyndromeBit(Generators[a], Generators[b]) == 0
  {
    forall a, b | 0 <= a < 3 && 0 <= b < 6
      ensures SyndromeBit(Generators[a], Generators[b]) == 0
    {
      Count7(Generators[a], Generators[b]);
    }
  }

  /** The three Z generators commute with all six. */
  lemma ZGeneratorsCommute()
    ensures forall a, b :: 3 <= a < 6 && 0 <= b < 6 ==> SyndromeBit(Generators[a], Generators[b]) == 0
  {
    forall a, b | 3 <= a < 6 && 0 <= b < 6
      ensures SyndromeBit(Generators[a], Generators[b]) == 0
    {
      Count7(Generators[a], Generators[b]);
    }
  }

  /** The logical X and the readout operator commute with every generator,
      and anticommute with each other: `x` need not touch the tracker and
      `measure_z` reads the logical value. */
  lemma LogicalOperators()
    ensures forall a :: 0 <= a < 6 ==> SyndromeBit(Generators[a], LogicalX) == 0
    ensures forall a :: 0 <= a < 6 ==> SyndromeBit(Generators[a], ZOp) == 0
    ensures SyndromeBit(ZOp, LogicalX) == 1
  {
    CommutesWithGenerators(LogicalX);
    CommutesWithGenerators(ZOp);
    Count7(ZOp, LogicalX);
  }

  /** `op` commutes with each of the six generators. */
  lemma CommutesWithGenerators(op: PString)
    requires op == LogicalX || op == ZOp
    ensures forall a :: 0 <= a < 6 ==> SyndromeBit(Generators[a], op) == 0
  {
    forall a | 0 <= a < 6 ensures SyndromeBit(Generators[a], op) == 0 {
      Count7(Generators[a], op);
    }
  }

  /** H on every qubit of a string. */
  function HAll(s: PString): (r: PString)
    ensures |r| == |s| && forall i :: 0 <= i < |s| ==> r[i] == ConjH(s[i])
  {
    seq(|s|, i requires 0 <= i < |s| => ConjH(s[i]))
  }

  /** Transversal H exchanges each X generator with the Z generator on the
      same support, so it maps the generator set onto itself and `h` need
      not touch the tracker. */
  lemma TransversalHSwapsGenerators()
    ensures forall k :: 0 <= k < 6 ==> HAll(Generators[k]) == Generators[(k + 3) % 6]
  {
    forall k | 0 <= k < 6 ensures HAll(Generators[k]) == Generators[(k + 3) % 6] {
      assert HAll(Generators[k])[..] == Generators[(k + 3) % 6][..];
    }
  }
}
