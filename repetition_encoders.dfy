/** The string-based encoder of the three-qubit repetition code: Pauli
    strings are spelled with the letters 'I', 'X', 'Y', 'Z'; every encoded
    gate but the readout ends with one `mpp` per stabilizer row, and each
    gate appends a decoder that later updates one block's correction or one
    readout register. */
module RepetitionEncoders {
  import opened Wrappers
  import opened Paulis
  import opened Circuit
  import LookupTables
  import opened Decoders
  import opened Stabilizers

  /** A Pauli string spelled letter by letter. */
  type Letters = seq<char>

  predicate PauliLetter(c: char) {
    c == 'I' || c == 'X' || c == 'Y' || c == 'Z'
  }

  predicate PauliLetters(s: Letters) {
    forall k :: 0 <= k < |s| ==> PauliLetter(s[k])
  }

  /** A letter as the phase-free Pauli it names; a letter outside I, X, Y,
      Z never occurs here and reads as I. */
  function ToPauli(c: char): (r: Pauli)
    ensures r.sign == 0
  {
    if c == 'X' then X else if c == 'Y' then Y else if c == 'Z' then Z else I
  }

  function ToPaulis(s: Letters): (r: PString)
    ensures |r| == |s| && forall k :: 0 <= k < |s| ==> r[k] == ToPauli(s[k])
  {
    seq(|s|, k requires 0 <= k < |s| => ToPauli(s[k]))
  }

  /** The letter that spells a phase-free Pauli. */
  function LetterOf(p: Pauli): char {
    if p.x && p.z then 'Y' else if p.x then 'X' else if p.z then 'Z' else 'I'
  }

  /** Reading letters as operators loses nothing: each operator is
      phase-free, spelling it gives its letter back, so two letter strings
      name the same operators only when they are the same string. */
  lemma ToPaulisRoundTrip(s: Letters, t: Letters)
    requires PauliLetters(s) && PauliLetters(t)
    ensures forall k :: 0 <= k < |s| ==> ToPaulis(s)[k] in {I, X, Y, Z} && LetterOf(ToPaulis(s)[k]) == s[k]
    ensures ToPaulis(s) == ToPaulis(t) ==> s == t
  {
    if ToPaulis(s) == ToPaulis(t) {
      forall k | 0 <= k < |s|
        ensures s[k] == t[k]
      {
        assert LetterOf(ToPaulis(s)[k]) == s[k] && LetterOf(ToPaulis(t)[k]) == t[k];
      }
    }
  }

  /** A correction made only of I and X on three qubits: the corrections
      this code ever holds. */
  predicate BitFlips(c: Letters) {
    |c| == 3 && forall k :: 0 <= k < 3 ==> c[k] == 'I' || c[k] == 'X'
  }

  // ---------------------------------------------------------------------
  // decode_syndrome

  /** `decode_syndrome`: the correction for the two parities of the rows
      ZZI and ZIZ; any other list falls off the end and gives None. */
  function DecodeSyndrome(syndrome: seq<int>): (r: Option<Letters>)
    ensures r.Some? <==> |syndrome| == 2 && syndrome[0] in {0, 1} && syndrome[1] in {0, 1}
    ensures r.Some? ==> BitFlips(r.value)
  {
    if syndrome == [0, 0] then Some("III")
    else if syndrome == [1, 0] then Some("IXI")
    else if syndrome == [0, 1] then Some("IIX")
    else if syndrome == [1, 1] then Some("XII")
    else None
  }

  // ---------------------------------------------------------------------
  // update_syndrome_value

  /** The letters differ and neither is I: the two Paulis anticommute. */
  predicate Clash(s: char, c: char) {
    s != c && c != 'I' && s != 'I'
  }

  /** The clashing positions among the first `k`. */
  function ClashesUpTo(s: Letters, c: Letters, k: nat): nat
    requires k <= |s| && k <= |c|
  {
    if k == 0 then 0 else ClashesUpTo(s, c, k - 1) + (if Clash(s[k - 1], c[k - 1]) then 1 else 0)
  }

  /** What `update_syndrome_value` returns: the value plus one per clashing
      position of `zip`, modulo 2. */
  function LetterValue(value: int, syndrome: Letters, correction: Letters): int {
    (value + ClashesUpTo(syndrome, correction, LookupTables.Min(|syndrome|, |correction|))) % 2
  }

  /** `update_syndrome_value`. */
  method UpdateSyndromeValue(value: int, syndrome: Letters, correction: Letters) returns (r: int)
    ensures r == LetterValue(value, syndrome, correction)
    ensures r == 0 || r == 1
  {
    r := value;
    var n := LookupTables.Min(|syndrome|, |correction|);
    var k := 0;
    while k < n
      invariant 0 <= k <= n
      invariant r == value + ClashesUpTo(syndrome, correction, k)
    {
      if !(syndrome[k] == correction[k] || correction[k] == 'I' || syndrome[k] == 'I') {
        r := r + 1;
      }
      k := k + 1;
    }
    r := r % 2;
  }

  lemma {:induction false} ClashesAreAnticommuting(s: Letters, c: Letters, k: nat)
    requires k <= |s| && k <= |c| && PauliLetters(s) && PauliLetters(c)
    ensures ClashesUpTo(s, c, k) == LookupTables.PenaltyUpTo(ToPaulis(s), ToPaulis(c), k)
  {
    if k > 0 {
      ClashesAreAnticommuting(s, c, k - 1);
    }
  }

  /** On real Pauli letters the letter rule is the tracker's: the value
      flips once per position where the operator and the correction do not
      commute, so the result is the value plus the syndrome bit. */
  lemma LetterValueAgrees(value: int, s: Letters, c: Letters)
    requires PauliLetters(s) && PauliLetters(c)
    ensures LetterValue(value, s, c) == LookupTables.UpdatedValue(value, ToPaulis(s), ToPaulis(c))
    ensures LetterValue(value, s, c) == (value + LookupTables.SyndromeBit(ToPaulis(s), ToPaulis(c))) % 2
  {
    var ps, pc := ToPaulis(s), ToPaulis(c);
    var m := LookupTables.Min(|s|, |c|);
    ClashesAreAnticommuting(s, c, m);
    LookupTables.PenaltyUnsigned(ps, pc, m);
  }

  /** A single bit flip `e` (or none) under the rows ZZI and ZIZ gives the
      syndrome `decode_syndrome` turns back into that flip, and no flip
      gives the trivial syndrome. */
  lemma DecodeSyndromeUndoesSingleFlips(e: Letters)
    requires e in ["III", "XII", "IXI", "IIX"]
    ensures DecodeSyndrome([LetterValue(0, "ZZI", e), LetterValue(0, "ZIZ", e)]) == Some(e)
  {
    assert ClashesUpTo("ZZI", e, 1) == (if e[0] == 'X' then 1 else 0);
    assert ClashesUpTo("ZZI", e, 2) == (if e[0] == 'X' || e[1] == 'X' then 1 else 0);
    assert ClashesUpTo("ZIZ", e, 2) == (if e[0] == 'X' then 1 else 0);
  }

  // ---------------------------------------------------------------------
  // multiply

  /** `check_one`; None where its assert fires. */
  function CheckOne(l: char, r: char): Option<char> {
    if l == 'I' then Some(r)
    else if r == 'I' then Some(l)
    else if l == r then Some('I')
    else None
  }

  /** The positions `multiply` reaches: those of `zip`. */
  predicate Multipliable(left: Letters, right: Letters) {
    forall k :: 0 <= k < LookupTables.Min(|left|, |right|) ==> CheckOne(left[k], right[k]).Some?
  }

  /** `multiply`: the letter-wise product over `zip`; None where two
      different non-I letters meet. */
  function Multiply(left: Letters, right: Letters): (r: Option<Letters>)
    ensures r.Some? <==> Multipliable(left, right)
    ensures r.Some? ==> |r.value| == LookupTables.Min(|left|, |right|)
  {
    var n := LookupTables.Min(|left|, |right|);
    if Multipliable(left, right) then Some(seq(n, k requires 0 <= k < n => CheckOne(left[k], right[k]).value))
    else None
  }

  /** I absorbs, equal letters cancel, and the product agrees with the
      Pauli product wherever it is defined; two different non-I letters
      make it fail. */
  lemma MultiplyProperties(left: Letters, right: Letters)
    requires PauliLetters(left) && PauliLetters(right)
    ensures Multiply(left, right).Some? <==>
              forall k :: 0 <= k < LookupTables.Min(|left|, |right|) ==>
                left[k] == 'I' || right[k] == 'I' || left[k] == right[k]
    ensures Multiply(left, right).Some? ==>
              forall k :: 0 <= k < LookupTables.Min(|left|, |right|) ==>
                Mul(ToPauli(left[k]), ToPauli(right[k])) == Some(ToPauli(Multiply(left, right).value[k]))
    ensures |left| == |right| && (forall k :: 0 <= k < |left| ==> left[k] == 'I') ==> Multiply(left, right) == Some(right)
    ensures Multiply(left, left).Some? && forall k :: 0 <= k < |left| ==> Multiply(left, left).value[k] == 'I'
  {
    var n := LookupTables.Min(|left|, |right|);
    if Multiply(left, right).Some? {
      forall k | 0 <= k < n
        ensures Mul(ToPauli(left[k]), ToPauli(right[k])) == Some(ToPauli(Multiply(left, right).value[k]))
      {
        MulSelfInverse(ToPauli(left[k]));
      }
    }
    if |left| == |right| && (forall k :: 0 <= k < |left| ==> left[k] == 'I') {
      assert Multiply(left, right).value == right;
    }
  }

  /** The product of two bit-flip corrections is defined and is again one:
      the letter-wise exclusive or. */
  lemma MultiplyBitFlips(left: Letters, right: Letters)
    requires BitFlips(left) && BitFlips(right)
    ensures Multiply(left, right).Some? && BitFlips(Multiply(left, right).value)
    ensures forall k :: 0 <= k < 3 ==> (Multiply(left, right).value[k] == 'X' <==> (left[k] == 'X') != (right[k] == 'X'))
  {
  }

  // ---------------------------------------------------------------------
  // The decoders

  /** The two decoder closures: `build_decoder` for a block's syndrome and
      the one `encode_measure` defines for a readout. */
  datatype BlockDecoder =
    | SyndromeDecoder(block: nat, registers: seq<nat>, stabilizer: seq<Letters>)
    | MeasureDecoder(register: nat, block: nat, encoded: nat, zOp: Letters)

  /** The decoder state: the memory of register values and one correction
      per logical qubit. */
  type DecoderState = (seq<Cell>, seq<Letters>)

  /** Every index the decoder reads or writes exists: a missing block is a
      KeyError, a register past the memory an IndexError. */
  predicate Covered(d: BlockDecoder, memorySize: nat, blockCount: nat) {
    match d
    case SyndromeDecoder(block, registers, _) => block < blockCount && InRange(registers, memorySize)
    case MeasureDecoder(register, block, encoded, _) => register < memorySize && block < blockCount && encoded < memorySize
  }

  /** The corrected syndrome: each measured value updated against its row
      and the block's last correction, over `zip`. */
  function NewSyndrome(values: seq<int>, stabilizer: seq<Letters>, last: Letters): (r: seq<int>)
    ensures |r| == LookupTables.Min(|values|, |stabilizer|)
    ensures forall k :: 0 <= k < |r| ==> r[k] == LetterValue(values[k], stabilizer[k], last)
  {
    var n := LookupTables.Min(|values|, |stabilizer|);
    seq(n, k requires 0 <= k < n => LetterValue(values[k], stabilizer[k], last))
  }

  /** What the corrected syndrome means on Pauli letters: each value is the
      measured value with the last correction's own syndrome bit against
      the row taken off, so the correction III leaves the measured
      parities. */
  lemma NewSyndromeMeaning(values: seq<int>, stabilizer: seq<Letters>, last: Letters)
    requires PauliLetters(last) && forall k :: 0 <= k < |stabilizer| ==> PauliLetters(stabilizer[k])
    ensures var r := NewSyndrome(values, stabilizer, last);
      forall k :: 0 <= k < |r| ==>
        r[k] == (values[k] + LookupTables.SyndromeBit(ToPaulis(stabilizer[k]), ToPaulis(last))) % 2
    ensures last == "III" ==>
      var r := NewSyndrome(values, stabilizer, last);
      forall k :: 0 <= k < |r| ==> r[k] == values[k] % 2
  {
    var r := NewSyndrome(values, stabilizer, last);
    forall k | 0 <= k < |r|
      ensures r[k] == (values[k] + LookupTables.SyndromeBit(ToPaulis(stabilizer[k]), ToPaulis(last))) % 2
      ensures last == "III" ==> r[k] == values[k] % 2
    {
      LetterValueAgrees(values[k], stabilizer[k], last);
      LookupTables.UpdatedValueProperties(values[k], ToPaulis(stabilizer[k]), ToPaulis(last));
    }
  }

  /** One decoder call on the shared state. A syndrome that is not a pair
      of bits makes `decode_syndrome` return None and `zip` raise; clashing
      letters make `multiply` fail its assert. */
  function Apply(d: BlockDecoder, mem: seq<Cell>, corr: seq<Letters>): (r: Result<DecoderState>)
    requires Covered(d, |mem|, |corr|)
    ensures r.Ok? ==> |r.value.0| == |mem| && |r.value.1| == |corr|
  {
    match d
    case SyndromeDecoder(block, registers, stabilizer) =>
      var last := corr[block];
      var cells := Gather(mem, registers);
      var m := LookupTables.Min(|registers|, |stabilizer|);
      if !KnownPrefix(cells, m) then Err("syndrome value is not an integer")
      else
        (match DecodeSyndrome(NewSyndrome(BitsOf(cells, m), stabilizer, last))
         case None => Err("TypeError: 'NoneType' object is not iterable")
         case Some(c) =>
           (match Multiply(c, last)
            case None => Err("AssertionError: Unexpected letters")
            case Some(p) => Ok((mem, corr[block := p]))))
    case MeasureDecoder(register, block, encoded, zOp) =>
      if mem[register].Unknown? then Err("measured value is not an integer")
      else Ok((mem[encoded := Bit(LetterValue(mem[register].bit, zOp, corr[block]))], corr))
  }

  /** The shape the compiler gives every decoder: two rows ZZI, ZIZ read
      from two registers, or a readout against ZII. */
  predicate Shaped(d: BlockDecoder) {
    match d
    case SyndromeDecoder(_, registers, stabilizer) => stabilizer == ["ZZI", "ZIZ"] && |registers| == 2
    case MeasureDecoder(_, _, _, zOp) => zOp == "ZII"
  }

  /** Every memory cell holds a value. */
  predicate AllKnown(mem: seq<Cell>) {
    forall i :: 0 <= i < |mem| ==> mem[i].Bit?
  }

  /** The state every decoder keeps: values everywhere in memory, and
      bit-flip corrections in every block. */
  predicate Sane(s: DecoderState) {
    AllKnown(s.0) && forall b :: 0 <= b < |s.1| ==> BitFlips(s.1[b])
  }

  /** A well-shaped decoder on a sane state never raises, and leaves the
      state sane: corrections stay within {I, X}^3, so the assert in
      `multiply` cannot fire. */
  lemma ApplyKeepsSane(d: BlockDecoder, s: DecoderState)
    requires Covered(d, |s.0|, |s.1|) && Shaped(d) && Sane(s)
    ensures Apply(d, s.0, s.1).Ok? && Sane(Apply(d, s.0, s.1).value)
  {
    match d
    case SyndromeDecoder(block, registers, stabilizer) =>
      var last := s.1[block];
      var cells := Gather(s.0, registers);
      assert KnownPrefix(cells, 2);
      var syn := NewSyndrome(BitsOf(cells, 2), stabilizer, last);
      assert |syn| == 2;
      var c := DecodeSyndrome(syn).value;
      MultiplyBitFlips(c, last);
    case MeasureDecoder(register, block, encoded, zOp) =>
  }

  /** `build_decoder`'s closure on a memory array and a correction array,
      written in place. */
  method RunDecoder(d: BlockDecoder, memory: array<Cell>, corrections: array<Letters>) returns (ok: bool)
    requires Covered(d, memory.Length, corrections.Length)
    modifies memory, corrections
    ensures ok <==> Apply(d, old(memory[..]), old(corrections[..])).Ok?
    ensures ok ==> Apply(d, old(memory[..]), old(corrections[..])).value == (memory[..], corrections[..])
  {
    match d
    case SyndromeDecoder(block, registers, stabilizer) =>
      var last := corrections[block];
      var m := LookupTables.Min(|registers|, |stabilizer|);
      var syndrome: seq<int> := [];
      var k := 0;
      while k < m
        invariant 0 <= k <= m && |syndrome| == k
        invariant memory[..] == old(memory[..]) && corrections[..] == old(corrections[..])
        invariant KnownPrefix(Gather(memory[..], registers), k)
        invariant forall j :: 0 <= j < k ==> syndrome[j] == LetterValue(memory[registers[j]].bit, stabilizer[j], last)
      {
        var cell := memory[registers[k]];
        if cell.Unknown? {
          assert Gather(memory[..], registers)[k] == cell;
          return false;
        }
        var v := UpdateSyndromeValue(cell.bit, stabilizer[k], last);
        syndrome := syndrome + [v];
        k := k + 1;
      }
      assert syndrome == NewSyndrome(BitsOf(Gather(memory[..], registers), m), stabilizer, last);
      var c := DecodeSyndrome(syndrome);
      if c.None? {
        return false;
      }
      var p := Multiply(c.value, last);
      if p.None? {
        return false;
      }
      corrections[block] := p.value;
      assert corrections[..] == old(corrections[..])[block := p.value];
      ok := true;
    case MeasureDecoder(register, block, encoded, zOp) =>
      var cell := memory[register];
      if cell.Unknown? {
        return false;
      }
      var v := UpdateSyndromeValue(cell.bit, zOp, corrections[block]);
      memory[encoded] := Bit(v);
      assert memory[..] == old(memory[..])[encoded := Bit(v)];
      ok := true;
  }

  // ---------------------------------------------------------------------
  // The encoding context and the encoders

  /** `Context`: logical qubit `i` owns physical qubits 3i, 3i+1, 3i+2;
      measurements are numbered from the kernel's register count; the
      decoders are kept in the order the encoders append them. */
  class Context {
    const blocks: map<nat, seq<nat>>
    var nextMeasurement: nat
    var decoders: seq<BlockDecoder>
    const stabilizer: seq<Letters>
    const xOp: Letters
    const zOp: Letters

    constructor(qubitCount: nat, registerCount: nat, stabilizer: seq<Letters>, xOp: Letters, zOp: Letters)
      ensures forall i: nat :: i in blocks <==> i < qubitCount
      ensures forall i: nat :: i in blocks ==> blocks[i] == [3 * i, 3 * i + 1, 3 * i + 2]
      ensures blocks == BlockMap(qubitCount, 3)
      ensures nextMeasurement == registerCount && decoders == []
      ensures this.stabilizer == stabilizer && this.xOp == xOp && this.zOp == zOp
    {
      blocks := BlockMap(qubitCount, 3);
      nextMeasurement := registerCount;
      decoders := [];
      this.stabilizer := stabilizer;
      this.xOp := xOp;
      this.zOp := zOp;
    }
  }

  /** One `mpp` per stabilizer row: row `k` measured over the block into
      register `first + k`, its letters as the parameters. */
  function MppRows(first: nat, rows: seq<Letters>, qubits: seq<nat>): (r: seq<Element>)
    ensures |r| == |rows|
    ensures forall k :: 0 <= k < |rows| ==>
              r[k] == Instruction(MppName, Some([RegisterId(first + k)] + QubitTargets(qubits)), ToPaulis(rows[k]))
  {
    seq(|rows|, k requires 0 <= k < |rows| =>
      Instruction(MppName, Some([RegisterId(first + k)] + QubitTargets(qubits)), ToPaulis(rows[k])))
  }

  /** `syndrome_extraction`: one fresh register per row, starting at the
      counter; the block's syndrome decoder is appended and the counter
      advances by the row count. */
  method SyndromeExtraction(block: nat, ctx: Context) returns (insts: seq<Element>)
    requires block in ctx.blocks
    modifies ctx
    ensures insts == MppRows(old(ctx.nextMeasurement), ctx.stabilizer, ctx.blocks[block])
    ensures ctx.decoders == old(ctx.decoders) +
              [SyndromeDecoder(block, Range(old(ctx.nextMeasurement), |ctx.stabilizer|), ctx.stabilizer)]
    ensures ctx.nextMeasurement == old(ctx.nextMeasurement) + |ctx.stabilizer|
  {
    var registers := Range(ctx.nextMeasurement, |ctx.stabilizer|);
    insts := MppRows(ctx.nextMeasurement, ctx.stabilizer, ctx.blocks[block]);
    ctx.nextMeasurement := ctx.nextMeasurement + |ctx.stabilizer|;
    ctx.decoders := ctx.decoders + [SyndromeDecoder(block, registers, ctx.stabilizer)];
  }

  /** The logical qubit an instruction's `k`-th target names, when the
      context has a block for it (a KeyError otherwise). */
  function BlockId(ctx: Context, inst: Element, k: nat): (r: Option<nat>)
    reads ctx
    ensures r.Some? <==> LookupBlock(ctx.blocks, TargetAt(inst, k)).Some?
    ensures r.Some? ==> r.value in ctx.blocks && TargetAt(inst, k) == Some(QubitId(r.value))
  {
    var t := TargetAt(inst, k);
    if LookupBlock(ctx.blocks, t).Some? then Some(t.value.value as nat) else None
  }

  /** `encode_prepare_zero`: a reset on each of the block's qubits, then
      the block's syndrome extraction. */
  method EncodePrepareZero(inst: Element, ctx: Context) returns (r: Result<seq<Element>>)
    modifies ctx
    ensures r.Ok? <==> BlockId(ctx, inst, 0).Some?
    ensures r.Err? ==> ctx.nextMeasurement == old(ctx.nextMeasurement) && ctx.decoders == old(ctx.decoders)
    ensures r.Ok? ==>
              var b := BlockId(ctx, inst, 0).value;
              var first := old(ctx.nextMeasurement);
              r.value == PerQubit(PrepareZeroName, ctx.blocks[b]) + MppRows(first, ctx.stabilizer, ctx.blocks[b]) &&
              ctx.decoders == old(ctx.decoders) + [SyndromeDecoder(b, Range(first, |ctx.stabilizer|), ctx.stabilizer)] &&
              ctx.nextMeasurement == first + |ctx.stabilizer|
  {
    var b := BlockId(ctx, inst, 0);
    if b.None? {
      return Err("KeyError: no block for the target");
    }
    var resets := PerQubit(PrepareZeroName, ctx.blocks[b.value]);
    var extraction := SyndromeExtraction(b.value, ctx);
    r := Ok(resets + extraction);
  }

  /** `encode_x`: one `ApplyPauli` of the context's X operator on the
      block, then the block's syndrome extraction. */
  method EncodeX(inst: Element, ctx: Context) returns (r: Result<seq<Element>>)
    modifies ctx
    ensures r.Ok? <==> BlockId(ctx, inst, 0).Some?
    ensures r.Err? ==> ctx.nextMeasurement == old(ctx.nextMeasurement) && ctx.decoders == old(ctx.decoders)
    ensures r.Ok? ==>
              var b := BlockId(ctx, inst, 0).value;
              var first := old(ctx.nextMeasurement);
              r.value == [Op(PauliName, ctx.blocks[b], ToPaulis(ctx.xOp))] + MppRows(first, ctx.stabilizer, ctx.blocks[b]) &&
              ctx.decoders == old(ctx.decoders) + [SyndromeDecoder(b, Range(first, |ctx.stabilizer|), ctx.stabilizer)] &&
              ctx.nextMeasurement == first + |ctx.stabilizer|
  {
    var b := BlockId(ctx, inst, 0);
    if b.None? {
      return Err("KeyError: no block for the target");
    }
    var flip := [Op(PauliName, ctx.blocks[b.value], ToPaulis(ctx.xOp))];
    var extraction := SyndromeExtraction(b.value, ctx);
    r := Ok(flip + extraction);
  }

  /** `encode_measure`: the context's Z operator measured over the block of
      the second target into one fresh register; its decoder writes the
      corrected value to the register the first target names. */
  method EncodeMeasure(inst: Element, ctx: Context) returns (r: Result<seq<Element>>)
    modifies ctx
    ensures r.Ok? <==> BlockId(ctx, inst, 1).Some? && RegisterOf(TargetAt(inst, 0)).Some?
    ensures r.Err? ==> ctx.nextMeasurement == old(ctx.nextMeasurement) && ctx.decoders == old(ctx.decoders)
    ensures r.Ok? ==>
              var b := BlockId(ctx, inst, 1).value;
              var raw := old(ctx.nextMeasurement);
              r.value == [Instruction(MppName, Some([RegisterId(raw)] + QubitTargets(ctx.blocks[b])), ToPaulis(ctx.zOp))] &&
              ctx.decoders == old(ctx.decoders) + [MeasureDecoder(raw, b, RegisterOf(TargetAt(inst, 0)).value, ctx.zOp)] &&
              ctx.nextMeasurement == raw + 1
  {
    var b := BlockId(ctx, inst, 1);
    var encoded := RegisterOf(TargetAt(inst, 0));
    if b.None? || encoded.None? {
      return Err("no block for the target, or no register to write");
    }
    var register := ctx.nextMeasurement;
    r := Ok([Instruction(MppName, Some([RegisterId(register)] + QubitTargets(ctx.blocks[b.value])), ToPaulis(ctx.zOp))]);
    ctx.nextMeasurement := ctx.nextMeasurement + 1;
    ctx.decoders := ctx.decoders + [MeasureDecoder(register, b.value, encoded.value, ctx.zOp)];
  }
}
