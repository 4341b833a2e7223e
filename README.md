# qstack fault-tolerant encoding core, modelled in Dafny

qstack lowers quantum programs written against high-level instruction sets
to executable circuits. This project models its fault-tolerant encoding
machinery and the compilers around it:

- **Pauli algebra** (`paulis.dfy`). Single-qubit Paulis with a phase quadrant, the product table as the repository writes it, commutation, `abs`, and conjugation of Pauli strings by X, Y, Z, H, CX and CZ.
- **Syndrome lookup tables** (`lookup_tables.dfy`). The depth-first `build_lookup_table` over an `error` array that it restores, and the sign-aware `update_syndrome_value`.
- **Stabilizer tracker** (`stabilizers.dfy`). The shared `Context` class: tracked generators, the register counter, the memoized tables, the blocks, and `gadget_with_error_correction`.
- **Decoders** (`decoders.dfy`). The decoder closures as values of one datatype, with the exact change each makes to the classical memory and the per-qubit corrections.
- **Gadget libraries**:
  - the bit-flip code (`rep3_bit.dfy`);
  - the phase-flip code (`rep3_phase.dfy`);
  - the Steane [[7,1,3]] code (`steane_gadgets.dfy`);
  - the older repetition-code library with its own context (`repetition_gadgets.dfy`);
  - the string-based repetition encoders (`repetition_encoders.dfy`).
- **Apps-level compilers** (`steane_apps_compiler.dfy`, `repetition_apps_compiler.dfy`). They dispatch one gadget or encoding per instruction, concatenate the circuits, and fold the decoders over one shared memory.
- **Kernel-level compilers** (`steane_kernel.dfy`, `rep3_trivial_kernel.dfy`, `kernel_gates.dfy`). Transversal handlers, syndrome extraction, the correction callbacks, the majority vote, and `compile_kernel`.
- **Supporting structures**:
  - the kernel tree (`ast.dfy`);
  - the classical co-processor stack (`classic_processor.dfy`);
  - gadget encoding (`encoder.dfy`);
  - circuit dimensions (`circuit.dfy`);
  - the instruction validation passes, current and legacy (`instruction_passes.dfy`).

Python exceptions (failed asserts, missing keys, type errors) become the
`Err` case of a `Result`, and `None` becomes `Option.None`. Python sets are
duplicate-free sequences, whose order stands for the set's iteration order.
State that the source mutates is modelled as state:
- `Context` objects and `ClassicProcessor` are classes;
- the backtracking `error` list and the correction vectors are arrays;
- loops are methods proved against specification functions.

## Model

| member | source | states |
|---|---|---|
| Paulis.Abs | src/qstack/paulis.py:45-46 | drops the phase and keeps the axis; the result is one of the phase-free I, X, Y, Z |
| Paulis.Mul | src/qstack/paulis.py:11-43 | the product is undefined exactly on a phased identity times a different non-identity; phase-free I is a two-sided unit; same-axis factors give phase-free I whatever their signs; distinct axes give the third axis with phase (sa+sb+1)%4 for XY, XZ, YZ and (sa+sb+3)%4 for YX, ZX, ZY |
| Paulis.Commutes | src/qstack/paulis.py:62-63 | where the product is defined, the test holds iff the two products agree; it fails on every pair whose product is undefined |
| Paulis.CommutesSymmetric | src/qstack/paulis.py:62-63 | the test is symmetric |
| Paulis.CommutesSymplectic | src/qstack/paulis.py:62-63 | away from phased identities the test agrees with the symplectic form (x_a z_b = z_a x_b) |
| Paulis.MulSelfInverse | src/qstack/paulis.py:13-14 | every Pauli times itself is phase-free I |
| Paulis.MulNotAssociative | src/qstack/paulis.py:13-23 | (iX·X)·X is X while iX·(X·X) is iX |
| Paulis.MulProperClosed | src/qstack/paulis.py:11-43 | products of operators that are not phased identities are defined and again not phased identities |
| Paulis.ConjInvolutions | src/qstack/paulis.py:66-104 | conjugating an entry twice by X, Y, Z or H (`ConjX`, `ConjY`, `ConjZ`, `ConjH`) restores it |
| Paulis.ConjugationMeaning | src/qstack/paulis.py:66-97 | on proper entries, conjugation by X, Y or Z keeps an entry that commutes with the gate and adds 2 to the phase of one that does not; H swaps X and Z, sends Y to Y with phase 2 and fixes I; each of the four conjugations preserves whether two entries commute |
| Paulis.ByX | src/qstack/paulis.py:66-72 | overwrites only `env[idx]`, with its conjugate by X |
| Paulis.ByY | src/qstack/paulis.py:75-81 | overwrites only `env[idx]`, with its conjugate by Y |
| Paulis.ByZ | src/qstack/paulis.py:84-90 | overwrites only `env[idx]`, with its conjugate by Z |
| Paulis.ByXYZTwice | src/qstack/paulis.py:66-90 | applying by_x, by_y or by_z twice at the same index restores the string |
| Paulis.ByH | src/qstack/paulis.py:93-104 | the loop builds a fresh string equal to `HAt` and leaves the input alone |
| Paulis.ByCx | src/qstack/paulis.py:107-126 | requires both indices inside the string, as the two asserts do; the loop builds a fresh string equal to `CxAt` |
| Paulis.ByCz | src/qstack/layers/rep3_phase/compilers/apps/gadgets.py:62-63 | the loop builds a fresh string equal to `CzAt` (by_cz is not defined in the Pauli module; supplied in the style of by_cx) |
| Paulis.HAtProperties | src/qstack/paulis.py:93-104 | H keeps the length and every other position, swaps x and z at `idx`, adds 2 to the sign iff the entry was on the Y axis, and applied twice restores the string |
| Paulis.CxAtProperties | src/qstack/paulis.py:107-126 | CX sets ctl.z ^= tgt.z and tgt.x ^= ctl.x, keeps both signs and every other position, and for ctl ≠ tgt is an involution |
| Paulis.CzAtProperties | src/qstack/layers/rep3_phase/compilers/apps/gadgets.py:62-63 | the supplied CZ is symmetric in its qubits and, for distinct qubits, an involution |
| LookupTables.Eval | src/qstack/stabilizers.py:18-23 | the nested `eval` loop returns the parity (0 or 1) of the positions of the common prefix where generator and error do not commute |
| LookupTables.EvalSyndrome | src/qstack/stabilizers.py:33 | the syndrome tuple is one `eval` per generator, in group order |
| LookupTables.SyndromeOfIdentity | src/qstack/stabilizers.py:44-47 | the all-I error has the all-zero syndrome, which is why the builder stores it under the trivial key |
| LookupTables.SyndromeOfSingle | src/qstack/stabilizers.py:18-33 | a single-position error flips exactly the generators that do not commute with it there |
| LookupTables.Visit | src/qstack/stabilizers.py:31-41 | one trial: `error[i]` becomes X or Z, the syndrome is stored only if it is neither trivial nor already present (first writer wins), the search goes one level deeper; only new keys are added, each with a sound entry |
| LookupTables.FindSyndromes | src/qstack/stabilizers.py:25-42 | the backtracker restores `error`, adds nothing at depth 0, never overwrites an existing key, stores only entries that reproduce their key, use only I/X/Z and have weight within the depth, and reaches the X and Z single error at every identity position |
| LookupTables.BuildLookupTable | src/qstack/stabilizers.py:12-49 | an empty group gives `{}`; otherwise the trivial syndrome maps to all-I, distance 0 gives only that key, every entry reproduces its key, has weight 1..distance off the trivial key and contains no Y, and with distance ≥ 1 every single X and Z error's syndrome is a key |
| LookupTables.BuiltTableSound | src/qstack/stabilizers.py:44-49 | the entries added to the trivial table by the search make the whole table sound |
| LookupTables.UpdateSyndromeValue | src/qstack/stabilizers.py:67-71 | the loop returns `UpdatedValue`, which is 0 or 1 |
| LookupTables.PenaltyCommuting | src/qstack/stabilizers.py:67-71 | positions that commute add nothing |
| LookupTables.PenaltyUnsigned | src/qstack/stabilizers.py:67-71 | without signs of 2 or 3 the added amount is the anticommutation count used by `eval` |
| LookupTables.UpdatedValueProperties | src/qstack/stabilizers.py:67-71 | the value is a bit; an error commuting everywhere gives `value % 2`; unsigned operators give the raw value plus the anticommutation count, mod 2 |
| LookupTables.TryPosition | src/qstack/stabilizers.py:29-41 | one identity position: the X and the Z error there both have their syndromes in the table afterwards, `error` is reset to what it was, no key is overwritten and every new entry is sound |
| Stabilizers.GroupMembers | src/qstack/stabilizers.py:88-94 | the group holds no element twice, holds only non-trivial restrictions of tracked generators, and holds every such restriction |
| Stabilizers.GroupNoDuplicates | src/qstack/stabilizers.py:89-93 | the group, built by set insertion, holds no element twice |
| Stabilizers.GroupOnlyRestrictions | src/qstack/stabilizers.py:90-93 | every group member has a non-identity entry and is the restriction of some tracked generator |
| Stabilizers.GroupHasEach | src/qstack/stabilizers.py:90-93 | every tracked generator whose restriction has a non-identity entry contributes that restriction |
| Stabilizers.GroupLength | src/qstack/stabilizers.py:91 | every group member has one entry per queried qubit |
| Stabilizers.Expand | src/qstack/stabilizers.py:97-99 | the expanded string has the tracker's length |
| Stabilizers.ExpandRestrict | src/qstack/stabilizers.py:97-99 | over distinct qubits the expansion holds `ps[i]` at `qubits[i]`, I everywhere else, and restricting it to the qubits (`Gather`, entry `i` taken at `qubits[i]`) gives `ps` back |
| Stabilizers.TablesSoundAdd | src/qstack/stabilizers.py:112-113 | storing a sound table (or `{}` for the empty group) keeps every memoized table sound |
| Stabilizers.Context.constructor | src/qstack/stabilizers.py:76-81 | a fresh context tracks nothing, keeps no tables, has the given qubit and register counts and distance |
| Stabilizers.Context.Blocks | src/qstack/layers/steane/compilers/apps/gadgets.py:11-17 | a per-code context has the given block size, `logicalCount * size` qubits, and maps exactly the logical qubits `i < logicalCount` to the block `i*size ..` |
| Stabilizers.BlocksPartitionQubits | src/qstack/layers/steane/compilers/apps/gadgets.py:15-17 | `BlockMap` gives every physical qubit below `n * size` to exactly one block, that of logical qubit `q / size`: two blocks sharing a qubit are the same block, and every block is in range and repeat-free |
| Stabilizers.LogicalOperands | src/qstack/layers/steane/compilers/apps/gadgets.py:61-62 | for an instruction on qubit ids, operand `k` (`TargetAt`) exists exactly for `k` below the target count and is then that qubit id; its index (`RegisterOf`) is the id's value; its block (`LookupBlock`) is the block of that logical qubit when the id is below the logical count, and none otherwise |
| Stabilizers.Context.NewRegister | src/qstack/stabilizers.py:83-86 | returns the old register count and advances it by one, changing nothing else |
| Stabilizers.Context.SetBlock | src/qstack/layers/rep3_phase/compilers/apps/gadgets.py:67 | rebinds one logical qubit's physical qubits and changes nothing else |
| Stabilizers.Context.FindStabilizerGroup | src/qstack/stabilizers.py:88-94 | the loop returns `Group` of the tracked generators, whose members `GroupMembers` characterises |
| Stabilizers.Context.AddStabilizer | src/qstack/stabilizers.py:96-100 | the expansion over `qubits` is added to the tracked set (no change if already there); nothing else changes |
| Stabilizers.Context.RemoveStabilizer | src/qstack/stabilizers.py:102-106 | succeeds iff the expansion is tracked (the `KeyError` otherwise) and removes exactly it; a failed removal changes nothing |
| Stabilizers.Context.ReplaceStabilizer | src/qstack/layers/rep3_phase/compilers/apps/gadgets.py:60-64 | one remove-then-add step: fails iff the generator's expansion is untracked, otherwise the set has it replaced by the image's expansion |
| Stabilizers.Context.ConjugateTracked | src/qstack/layers/rep3_phase/compilers/apps/gadgets.py:86-93 | the corrected tracker update: the tracker becomes `Conjugated` of the old one, stays duplicate-free with full-length strings, and the counters and tables are kept |
| Stabilizers.Context.Memoize | src/qstack/stabilizers.py:111-114 | the group's table is present afterwards; the only new key is the group, and every table already kept is unchanged (built at most once) |
| Stabilizers.Context.BuildDecoder | src/qstack/stabilizers.py:108-145 | the decoder carries the block, the registers, the current group and its memoized table, which is proper and, for a non-empty group, sound for the context's distance; only the group's key may be added |
| Stabilizers.MemoizedTableProper | src/qstack/stabilizers.py:111-114 | a memoized table's entries are Pauli strings of the block's length without signs |
| Stabilizers.BlockInRange | src/qstack/layers/repetition/compilers/apps/gadgets.py:10-16 | the block of each logical qubit is made of distinct physical qubits below `n * size` |
| Stabilizers.SoundTableProper | src/qstack/stabilizers.py:44-49 | the entries of a sound table are proper corrections of the block's length |
| Stabilizers.RetrackedSnoc | src/qstack/layers/rep3_phase/compilers/apps/gadgets.py:86-93 | the update over one more group member removes that member's expansion if tracked (failing otherwise) and adds its image's expansion |
| Stabilizers.RetrackStep | src/qstack/layers/rep3_phase/compilers/apps/gadgets.py:90-93 | one loop turn either extends the update to one more member or makes the whole update fail; the counters and tables are kept |
| Stabilizers.RetrackedFailureStays | src/qstack/layers/rep3_phase/compilers/apps/gadgets.py:90-93 | once a removal raises, the update as a whole raises |
| Stabilizers.RetrackStepMembers | src/qstack/stabilizers.py:96-106 | a remove-then-add step keeps the set duplicate-free and holds exactly the image plus the old members other than the removed one |
| Stabilizers.SpanningGeneratorDefeatsRetrack | src/qstack/layers/rep3_phase/compilers/apps/gadgets.py:86-93 | with `XXI XXI III` tracked over three blocks, a `cx` from block 0 to block 2 finds the group `[XXI III]` and its update raises `KeyError` |
| Stabilizers.OneSpanningGeneratorDefeatsRetrack | src/qstack/stabilizers.py:88-106 | any single tracked generator that is non-trivial on the gate's qubits and also acts on a qubit outside them forms the whole group, and removing its padded restriction fails |
| Stabilizers.SpanningExpansionUntracked | src/qstack/stabilizers.py:102-106 | the expansion `XXI III III` that remove_stabilizer looks up is not tracked |
| Stabilizers.SpanningGroup | src/qstack/stabilizers.py:88-94 | the group of `XXI XXI III` on blocks 0 and 2 is `[XXI III]` |
| Stabilizers.ConjugateOne | src/qstack/layers/rep3_phase/compilers/apps/gadgets.py:86-93 | the new version of a generator keeps its length |
| Stabilizers.ConjugateAll | src/qstack/layers/rep3_phase/compilers/apps/gadgets.py:86-93 | the corrected loop returns `Conjugated` of the tracked generators |
| Stabilizers.ConjugatedNoDuplicates | src/qstack/stabilizers.py:79-100 | the corrected update yields a duplicate-free set |
| Stabilizers.ConjugatedHasEach | src/qstack/layers/rep3_phase/compilers/apps/gadgets.py:86-93 | the new version of every tracked generator is tracked afterwards |
| Stabilizers.ConjugatedOnlyImages | src/qstack/layers/rep3_phase/compilers/apps/gadgets.py:86-93 | only new versions of tracked generators are tracked afterwards |
| Stabilizers.ConjugatedLengths | src/qstack/stabilizers.py:97 | after the corrected update every tracked string still has the tracker's length |
| Stabilizers.ConjugateOneSpec | src/qstack/layers/rep3_phase/compilers/apps/gadgets.py:86-93 | a generator acting on the block gets the image on the block and keeps every other position |
| Stabilizers.ExtractionShape | src/qstack/stabilizers.py:154-156 | the extraction has two elements per generator: a `Tick` at `2k` and at `2k+1` the `mpp` of generator `k` into register `first + k` over the block |
| Stabilizers.TransversalTargets | src/qstack/layers/steane/compilers/apps/gadgets.py:78-91 | the per-qubit gates (`PerQubit`) target the given qubits one each, in order, and the pairwise gates (`Pairwise`) target `a[0], b[0], a[1], b[1], ..` |
| Stabilizers.GadgetWithErrorCorrection | src/qstack/stabilizers.py:148-160 | the gadget is the instructions followed by the extraction of the group into one fresh consecutive register per generator (the counter advances by the group size), with the group's syndrome decoder; the tracker is unchanged and kept tables are kept |
| Stabilizers.NewRegisters | src/qstack/stabilizers.py:152 | returns the `count` registers from the old counter on and advances the counter by `count` |
| Stabilizers.AppendExtraction | src/qstack/stabilizers.py:154-156 | the loop appends exactly `Extraction` to the instructions |
| Decoders.AssignSpec | src/qstack/stabilizers.py:120-121 | after the write loop each block qubit holds its written value and every other index keeps its old value |
| Decoders.Products | src/qstack/stabilizers.py:142-143 | the products are defined iff every pairwise product is defined, and are then exactly those products |
| Decoders.NewSyndromeMeaning | src/qstack/stabilizers.py:124-125 | each bit of `NewSyndrome` is 0 or 1; with last corrections that commute with every generator it is the measured bit mod 2; with unsigned generators and corrections it is the measured bit plus the syndrome of the last corrections (`SyndromeOf`, as `eval` computes it), mod 2 |
| Decoders.ComputeSyndrome | src/qstack/stabilizers.py:124-125 | the comprehension loop computes exactly the corrected syndrome |
| Decoders.WriteAll | src/qstack/stabilizers.py:120-121 | the `enumerate(qubits)` write loop leaves the array equal to the specified sequence of writes |
| Decoders.RunDecoder | src/qstack/stabilizers.py:116-144 | running a decoder on the shared memory and corrections succeeds iff the specification `Step` does, and then leaves exactly its state |
| Decoders.WriteLookup | src/qstack/stabilizers.py:136-143 | the lookup-and-write step succeeds iff every product is defined and then writes exactly the specified corrections |
| Decoders.CorrectPropagatesAbort | src/qstack/stabilizers.py:116-122 | if any block qubit is aborted, the decoder marks every block qubit aborted and changes nothing else |
| Decoders.CorrectAbortMode | src/qstack/stabilizers.py:127-134 | in abort mode a trivial corrected syndrome changes nothing and any other aborts exactly the block |
| Decoders.FreshBlockTakesTableEntry | src/qstack/stabilizers.py:136-143 | a block without prior correction takes the table entry for its measured syndrome, the rest unchanged |
| Decoders.SyndromeDecodersNeverFail | src/qstack/stabilizers.py:116-143 | with proper corrections and table the syndrome decoders never raise, never write memory and keep the corrections proper |
| Decoders.LookupUpdatesCorrections | src/qstack/stabilizers.py:116-143 | on a block that is not aborted, a syndrome found in the table makes each block qubit's correction its last correction times the entry's Pauli; a syndrome missing from it leaves every correction as it was; memory and other qubits are untouched |
| Decoders.ReadoutWritesEncoded | src/qstack/layers/rep3_bit/compilers/apps/gadgets.py:83-90 | a readout changes only the encoded register, writing "?" exactly for an aborted block in marking mode and otherwise a bit, which is the raw parity when the block has no correction |
| Rep3Bit.NewContext | src/qstack/layers/rep3_bit/compilers/apps/gadgets.py:11-14 | a fresh tracker over three physical qubits per logical qubit, distance 1, nothing tracked, and logical qubit `i` owning exactly `3i, 3i+1, 3i+2` |
| Rep3Bit.PrepareZero | src/qstack/layers/rep3_bit/compilers/apps/gadgets.py:17-26 | fails exactly on an unknown block; otherwise adds ZZI and ZIZ over the block, resets each qubit and appends the syndrome extraction with a table for the block's group |
| Rep3Bit.ApplyX | src/qstack/layers/rep3_bit/compilers/apps/gadgets.py:29-35 | fails exactly on an unknown block; otherwise leaves the tracked generators alone and emits XXX on the block followed by the syndrome extraction |
| Rep3Bit.ApplyH | src/qstack/layers/rep3_bit/compilers/apps/gadgets.py:38-48 | fails exactly on an unknown block; otherwise H on each qubit and an extraction whose decoder is marked to abort |
| Rep3Bit.ApplyCx | src/qstack/layers/rep3_bit/compilers/apps/gadgets.py:51-66 | fails exactly when either block is unknown; otherwise the three pairwise CX and one extraction over both blocks, leaving the tracked generators alone |
| Rep3Bit.MeasureZ | src/qstack/layers/rep3_bit/compilers/apps/gadgets.py:69-92 | fails exactly on an unknown block or a non-register target; otherwise allocates one raw register, measures the block's first qubit into it, and attaches a decoder that writes the corrected bit, or "?" when a correction is missing, into the encoded register |
| Rep3Bit.CodeCommutation | src/qstack/layers/rep3_bit/compilers/apps/gadgets.py:21-89 | ZZI and ZIZ commute with each other, with the logical XXX and with the readout ZII; ZII anticommutes with XXX |
| Rep3Phase.NewContext | src/qstack/layers/rep3_phase/compilers/apps/gadgets.py:11-14 | a fresh tracker over three physical qubits per logical qubit, distance 1, nothing tracked, and logical qubit `i` owning exactly `3i, 3i+1, 3i+2` |
| Rep3Phase.PrepareZero | src/qstack/layers/rep3_phase/compilers/apps/gadgets.py:17-33 | fails exactly on an unknown block; otherwise adds XXI and XIX over the block, emits reset, H on each qubit, CX(0,1), CX(0,2), and the syndrome extraction with a decoder table for the block's group |
| Rep3Phase.ApplyX | src/qstack/layers/rep3_phase/compilers/apps/gadgets.py:36-42 | fails exactly on an unknown block; otherwise leaves the tracked generators alone and emits ZZZ on the block followed by the syndrome extraction |
| Rep3Phase.Reverse3Block | src/qstack/layers/rep3_phase/compilers/apps/gadgets.py:67 | the reversed qubit list of a block is again in range and free of repeats |
| Rep3Phase.HImagesOfGenerators | src/qstack/layers/rep3_phase/compilers/apps/gadgets.py:59-63 | `HImages` takes the tracked XXI and XIX through H(0), CZ(0,1), CZ(0,2) to IXI and IIX |
| Rep3Phase.RetrackH | src/qstack/layers/rep3_phase/compilers/apps/gadgets.py:58-64 | succeeds iff every remove-conjugate-add step finds its generator; on success the tracker is exactly the specified replacement, and blocks, registers and tables are unchanged |
| Rep3Phase.ApplyH | src/qstack/layers/rep3_phase/compilers/apps/gadgets.py:45-69 | an unknown block changes nothing; otherwise succeeds iff the tracker update succeeds, then the tracker is the updated one, the block's list is reversed, and the gadget is H, CZ, CZ plus extraction over the qubits in their former order |
| Rep3Phase.RetrackCx | src/qstack/layers/rep3_phase/compilers/apps/gadgets.py:86-93 | succeeds iff every remove-conjugate-add step finds its generator; on success the tracker is exactly the specified replacement, and blocks, registers and tables are unchanged |
| Rep3Phase.ApplyCx | src/qstack/layers/rep3_phase/compilers/apps/gadgets.py:72-95 | an unknown block fails and changes nothing; otherwise succeeds iff the tracker update succeeds, and then emits the three pairwise CX and the extraction over both blocks |
| Rep3Phase.ApplyCxCorrected | src/qstack/layers/rep3_phase/compilers/apps/gadgets.py:72-95 | succeeds iff both blocks exist; every tracked generator is conjugated on the six qubits in place, and the gadget is as in `cx` |
| Rep3Phase.CxSpanningGeneratorFails | src/qstack/layers/rep3_phase/compilers/apps/gadgets.py:87-89 | with `XXI XXI III` tracked, a `cx` from block 0 into block 2 cannot remove the generator it looks for |
| Rep3Phase.CxSpanningGeneratorCorrected | src/qstack/layers/rep3_phase/compilers/apps/gadgets.py:87-93 | on the same tracker the corrected update yields `XXI XXI XXI` |
| Rep3Phase.CxImageExample | src/qstack/layers/rep3_phase/compilers/apps/gadgets.py:90-92 | transversal CX maps `XXI III` to `XXI XXI` |
| Rep3Phase.ConjugateOneExample | src/qstack/layers/rep3_phase/compilers/apps/gadgets.py:88-93 | conjugating `XXI XXI III` on block 0 and block 2 by the image `XXI XXI` gives `XXI XXI XXI` |
| Rep3Phase.MeasureZ | src/qstack/layers/rep3_phase/compilers/apps/gadgets.py:98-120 | fails exactly on an unknown block or a non-register target; otherwise allocates one raw register, measures XII over the block into it, and attaches a decoder that writes the corrected bit into the encoded register |
| Rep3Phase.CodeCommutation | src/qstack/layers/rep3_phase/compilers/apps/gadgets.py:21-108 | XXI and XIX commute with each other, with the logical ZZZ and with the readout XII; XII anticommutes with ZZZ |
| Rep3Phase.CxImagesOfGenerators | src/qstack/layers/rep3_phase/compilers/apps/gadgets.py:86-93 | transversal CX copies each control-block generator onto the target block and leaves the target-block generators in place; `CxImages` and `CxImagesOf` apply this image to each group member and to each tracked generator's restriction |
| SteaneGadgets.NewContext | src/qstack/layers/steane/compilers/apps/gadgets.py:11-17 | a fresh tracker over seven physical qubits per logical qubit, nothing tracked, and logical qubit `i` owning exactly `7i .. 7i+6` |
| SteaneGadgets.PrepareCircuit | src/qstack/layers/steane/compilers/apps/gadgets.py:37-55 | the encoder is the seven resets on the block in order, then H on its first three qubits, then the eleven CX of the published encoder, CX(q[c_k], q[t_k]) with controls 6,6,0,0,0,1,1,1,2,2,2 and targets 3,4,3,4,5,3,5,6,4,5,6 |
| SteaneGadgets.EncoderPreparesCode | src/qstack/layers/steane/compilers/apps/gadgets.py:30-55 | pushing the reset state's Z on qubits 0 .. 5 through the encoder (H on 0 .. 2, then the eleven CX) gives the three X generators the context tracks from Z0, Z1, Z2, and products of the images of Z3, Z4, Z5 give its three Z generators, so the circuit prepares the tracked code |
| SteaneGadgets.TrackGenerators | src/qstack/layers/steane/compilers/apps/gadgets.py:30-35 | the tracker becomes the old one with the six generators added in order; blocks, registers and tables are unchanged |
| SteaneGadgets.PrepareZero | src/qstack/layers/steane/compilers/apps/gadgets.py:20-57 | fails exactly on an unknown block; otherwise tracks the six generators, emits the encoder and the syndrome extraction with a table for the block's group, taking one register per group member |
| SteaneGadgets.ApplyX | src/qstack/layers/steane/compilers/apps/gadgets.py:60-70 | fails exactly on an unknown block; otherwise X on qubits 3, 4 and 6 and the syndrome extraction, tracker unchanged, one register taken per group member |
| SteaneGadgets.ApplyH | src/qstack/layers/steane/compilers/apps/gadgets.py:73-80 | fails exactly on an unknown block; otherwise H on all seven qubits and the syndrome extraction, tracker unchanged, one register taken per group member |
| SteaneGadgets.CxUpToSpec | src/qstack/layers/steane/compilers/apps/gadgets.py:98-99 | after the first `k` of the seven `by_cx(i, i+7)`, pair `i < k` has the control's z and the target's x updated by the other, signs kept; the other positions are untouched |
| SteaneGadgets.CxImageTransversal | src/qstack/layers/steane/compilers/apps/gadgets.py:98-99 | all seven `by_cx(i, i+7)` together are transversal CX on every pair: qubit `i` gains the target's z, qubit `i+7` the control's x; `CxImages` and `CxImagesOf` apply this image to each group member and to each tracked generator's restriction |
| SteaneGadgets.ConjugateCx | src/qstack/layers/steane/compilers/apps/gadgets.py:98-99 | the inner loop computes exactly the transversal-CX image |
| SteaneGadgets.RetrackCx | src/qstack/layers/steane/compilers/apps/gadgets.py:94-100 | succeeds iff every remove-conjugate-add step finds its generator; on success the tracker is exactly the specified replacement, and blocks, registers and tables are unchanged |
| SteaneGadgets.ApplyCx | src/qstack/layers/steane/compilers/apps/gadgets.py:83-102 | an unknown block fails and changes nothing; otherwise succeeds iff the tracker update succeeds, and then emits seven pairwise CX and one extraction over both blocks, taking one register per group member |
| SteaneGadgets.ApplyCxCorrected | src/qstack/layers/steane/compilers/apps/gadgets.py:83-102 | succeeds iff both blocks exist; every tracked generator is conjugated on the fourteen qubits in place, and the gadget is as in `cx` |
| SteaneGadgets.CxSpanningGeneratorFails | src/qstack/layers/steane/compilers/apps/gadgets.py:94-100 | with X on qubits 0 and 7 tracked over three blocks, a `cx` from block 0 into block 2 raises `KeyError` in the tracker update |
| SteaneGadgets.CxSpanningGeneratorCorrected | src/qstack/layers/steane/compilers/apps/gadgets.py:94-100 | on the same tracker the corrected update leaves X on qubits 0, 7 and 14: the CX copies the X of qubit 0 to qubit 14, and the X outside the blocks is kept |
| SteaneGadgets.MeasureZ | src/qstack/layers/steane/compilers/apps/gadgets.py:105-129 | fails exactly on an unknown block or a non-register target; otherwise allocates one raw register, measures IZZIIIZ over the block into it, and attaches a decoder that writes the corrected bit into the encoded register |
| SteaneGadgets.GeneratorsCommute | src/qstack/layers/steane/compilers/apps/gadgets.py:30-35 | the six tracked generators commute pairwise |
| SteaneGadgets.XGeneratorsCommute | src/qstack/layers/steane/compilers/apps/gadgets.py:30-32 | each X generator commutes with all six |
| SteaneGadgets.ZGeneratorsCommute | src/qstack/layers/steane/compilers/apps/gadgets.py:33-35 | each Z generator commutes with all six |
| SteaneGadgets.LogicalOperators | src/qstack/layers/steane/compilers/apps/gadgets.py:64-68 | X on qubits 3, 4, 6 and the readout IZZIIIZ each commute with every generator and anticommute with each other, so `x` need not touch the tracker and `measure_z` reads the logical value |
| SteaneGadgets.TransversalHSwapsGenerators | src/qstack/layers/steane/compilers/apps/gadgets.py:73-80 | transversal H (`HAll`) maps each X generator onto the Z generator on the same support and back, so the tracked set is preserved and `h` need not update it |
| RepetitionGadgets.RowsStep | src/qstack/layers/repetition/compilers/apps/gadgets.py:24-25 | trying one more Pauli appends its row of errors |
| RepetitionGadgets.WrittenAppend | src/qstack/layers/repetition/compilers/apps/gadgets.py:24-37 | writing two batches of errors one after the other is writing their concatenation |
| RepetitionGadgets.WriteRow | src/qstack/layers/repetition/compilers/apps/gadgets.py:25-37 | the inner loop leaves the table as the specified writes of the row's errors |
| RepetitionGadgets.BuildErrorLookup | src/qstack/layers/repetition/compilers/apps/gadgets.py:19-38 | the table is `{}` for an empty group and otherwise the specified last-writer-wins table of every single-position error in the order Y, Z, X, I |
| RepetitionGadgets.WrittenSound | src/qstack/layers/repetition/compilers/apps/gadgets.py:36-37 | every entry written is one of the errors, under its own syndrome |
| RepetitionGadgets.WrittenLastWins | src/qstack/layers/repetition/compilers/apps/gadgets.py:37 | an error written after every other error with its syndrome is the entry under that syndrome |
| RepetitionGadgets.RowsSingles | src/qstack/layers/repetition/compilers/apps/gadgets.py:24-35 | every error tried (`Row` k of the table) is a single tried Pauli at one position |
| RepetitionGadgets.ErrorLookupProperties | src/qstack/layers/repetition/compilers/apps/gadgets.py:19-38 | every entry reproduces its key and is a single tried Pauli; for a non-empty group the trivial syndrome holds the identity |
| RepetitionGadgets.Written3 | src/qstack/layers/repetition/compilers/apps/gadgets.py:37 | writing three errors is three map updates in order |
| RepetitionGadgets.BitFlipSyndromes | src/qstack/layers/repetition/compilers/apps/gadgets.py:27-36 | under ZZI, ZIZ an X or Y on positions 0, 1, 2 has syndrome 11, 10, 01 |
| RepetitionGadgets.TrivialSyndromes | src/qstack/layers/repetition/compilers/apps/gadgets.py:27-36 | under ZZI, ZIZ a Z or I anywhere has the trivial syndrome |
| RepetitionGadgets.BitFlipTable | src/qstack/layers/repetition/compilers/apps/gadgets.py:19-38 | for ZZI, ZIZ the table is exactly identity under 00 and the three single bit flips under 11, 10, 01 |
| RepetitionGadgets.YZRowKeys | src/qstack/layers/repetition/compilers/apps/gadgets.py:24-37 | the Y and Z rows only write the four syndromes |
| RepetitionGadgets.XIRowsOverwrite | src/qstack/layers/repetition/compilers/apps/gadgets.py:24-37 | the X and I rows overwrite all four syndromes with the final entries |
| RepetitionGadgets.XRowWrites | src/qstack/layers/repetition/compilers/apps/gadgets.py:25-37 | the X row writes the three single bit flips |
| RepetitionGadgets.IRowWrites | src/qstack/layers/repetition/compilers/apps/gadgets.py:25-37 | the I row writes the identity under the trivial syndrome |
| RepetitionGadgets.ErrorLookupByRows | src/qstack/layers/repetition/compilers/apps/gadgets.py:24-37 | for a non-empty group the table is the four rows written in order Y, Z, X, I |
| RepetitionGadgets.Context.constructor | src/qstack/layers/repetition/compilers/apps/gadgets.py:10-16 | logical qubit `i` owns exactly `3i, 3i+1, 3i+2`, the measurement counter starts at the register count, nothing is tracked |
| RepetitionGadgets.Context.AddStabilizer | src/qstack/layers/repetition/compilers/apps/gadgets.py:76-80 | the tracked set gains the generator's expansion over the block, nothing else changes |
| RepetitionGadgets.Context.RemoveStabilizer | src/qstack/layers/repetition/compilers/apps/gadgets.py:83-87 | fails iff the expansion is untracked (the `KeyError`), and the set loses exactly it |
| RepetitionGadgets.Context.SetBlock | src/qstack/layers/repetition/compilers/apps/gadgets.py:147 | the block map is updated at one key, nothing else changes |
| RepetitionGadgets.Context.TakeRegisters | src/qstack/layers/repetition/compilers/apps/gadgets.py:92-99 | returns the old counter and advances it by the count |
| RepetitionGadgets.FindStabilizerGroup | src/qstack/layers/repetition/compilers/apps/gadgets.py:41-47 | the loop returns exactly the group of non-trivial restrictions |
| RepetitionGadgets.GadgetWithErrorCorrection | src/qstack/layers/repetition/compilers/apps/gadgets.py:90-101 | registers start at the counter, which advances by the group size; the gadget is the specified extraction with a lookup decoder over the group; the tracker and blocks are unchanged |
| RepetitionGadgets.PrepareZero | src/qstack/layers/repetition/compilers/apps/gadgets.py:104-113 | fails exactly on an unknown block; otherwise adds ZZI and ZIZ over the block, resets its qubits and appends the extraction |
| RepetitionGadgets.ApplyX | src/qstack/layers/repetition/compilers/apps/gadgets.py:116-122 | fails exactly on an unknown block; otherwise XXX on the block and the extraction, tracker unchanged |
| RepetitionGadgets.Retrack | src/qstack/layers/repetition/compilers/apps/gadgets.py:139-144 | the remove-conjugate-add loop succeeds iff every removal finds its generator, and then the tracker is the specified replacement |
| RepetitionGadgets.HImagesOfGenerators | src/qstack/layers/repetition/compilers/apps/gadgets.py:139-144 | `HImages` takes the tracked ZZI and ZIZ through H(0), CX(0,1), CX(0,2) to YYX and YXY |
| RepetitionGadgets.TrackH | src/qstack/layers/repetition/compilers/apps/gadgets.py:138-147 | the `h` update succeeds iff the retrack does, then the tracker is updated and the block reversed; on failure the blocks are unchanged |
| RepetitionGadgets.ApplyH | src/qstack/layers/repetition/compilers/apps/gadgets.py:125-149 | an unknown block changes nothing; otherwise succeeds iff the update succeeds, then emits H, Z, CX, CX plus the extraction under the name "x" |
| RepetitionGadgets.ApplyCx | src/qstack/layers/repetition/compilers/apps/gadgets.py:152-175 | an unknown block fails and changes nothing; otherwise succeeds iff the transversal-CX update succeeds, then emits the three CX and the extraction under the name "x" |
| RepetitionGadgets.MeasureZ | src/qstack/layers/repetition/compilers/apps/gadgets.py:178-202 | fails exactly on an unknown block or a non-register target; otherwise measures ZII into the next register, advances the counter by one and attaches the readout decoder |
| RepetitionGadgets.SingleFlipCorrected | src/qstack/layers/repetition/compilers/apps/gadgets.py:57-71 | each single bit flip on a fresh block has its syndrome in the ZZI, ZIZ table, whose entry is that flip |
| RepetitionEncoders.DecodeSyndrome | src/qstack/layers/repetition/compilers/apps/encoders.py:26-37 | returns a correction exactly for a pair of bits, and that correction is made of I and X only |
| RepetitionEncoders.UpdateSyndromeValue | src/qstack/layers/repetition/compilers/apps/encoders.py:40-46 | the loop returns the value plus one per clashing position of `zip`, modulo 2, always 0 or 1 |
| RepetitionEncoders.ToPaulisRoundTrip | src/qstack/layers/repetition/compilers/apps/encoders.py:81 | the letters of a row become the phase-free I, X, Y, Z, and reading them back gives the row, so different rows are measured as different Pauli strings |
| RepetitionEncoders.ClashesAreAnticommuting | src/qstack/layers/repetition/compilers/apps/encoders.py:42-45 | on Pauli letters the clashing positions are exactly the non-commuting ones |
| RepetitionEncoders.LetterValueAgrees | src/qstack/layers/repetition/compilers/apps/encoders.py:40-46 | on Pauli letters the letter rule agrees with the tracker's `update_syndrome_value` and is the value plus the syndrome bit |
| RepetitionEncoders.DecodeSyndromeUndoesSingleFlips | src/qstack/layers/repetition/compilers/apps/encoders.py:26-46 | for no flip or a single X flip, the ZZI and ZIZ syndromes decode back to that flip |
| RepetitionEncoders.Multiply | src/qstack/layers/repetition/compilers/apps/encoders.py:49-60 | the product exists iff no position of `zip` meets two different non-I letters, and then has the shorter length |
| RepetitionEncoders.MultiplyProperties | src/qstack/layers/repetition/compilers/apps/encoders.py:49-60 | the product is defined exactly when every position has an I or equal letters, agrees with the Pauli product there, I is the identity and a string times itself is all I |
| RepetitionEncoders.MultiplyBitFlips | src/qstack/layers/repetition/compilers/apps/encoders.py:49-60 | two I/X corrections always multiply, giving their letter-wise exclusive or |
| RepetitionEncoders.NewSyndromeMeaning | src/qstack/layers/repetition/compilers/apps/encoders.py:68 | `NewSyndrome` bit `k` is the measured bit plus the syndrome of the last correction under row `k`, mod 2; with no prior correction (III) it is the measured bit mod 2 |
| RepetitionEncoders.ApplyKeepsSane | src/qstack/layers/repetition/compilers/apps/encoders.py:63-73 | a decoder of the compiler's shape on a sane state never raises and keeps every correction made of I and X |
| RepetitionEncoders.RunDecoder | src/qstack/layers/repetition/compilers/apps/encoders.py:63-73 | running a decoder on memory and correction arrays succeeds iff the specification `Apply` does, and then leaves exactly its state |
| RepetitionEncoders.Context.constructor | src/qstack/layers/repetition/compilers/apps/encoders.py:10-23 | logical qubit `i` owns exactly `3i, 3i+1, 3i+2`, the counter starts at the register count, no decoders, the given rows and operators |
| RepetitionEncoders.SyndromeExtraction | src/qstack/layers/repetition/compilers/apps/encoders.py:76-89 | returns one `mpp` per row (`MppRows`: row `k` measured into register `first + k` over the block's qubits, in order), appends the block's syndrome decoder over exactly those registers and advances the counter by the row count |
| RepetitionEncoders.BlockId | src/qstack/layers/repetition/compilers/apps/encoders.py:93 | a block id exists iff the target names a block of the context |
| RepetitionEncoders.EncodePrepareZero | src/qstack/layers/repetition/compilers/apps/encoders.py:92-96 | fails exactly on an unknown block; otherwise a reset per qubit followed by the extraction, with its decoder and counter update |
| RepetitionEncoders.EncodeX | src/qstack/layers/repetition/compilers/apps/encoders.py:99-103 | fails exactly on an unknown block; otherwise the X operator on the block followed by the extraction |
| RepetitionEncoders.EncodeMeasure | src/qstack/layers/repetition/compilers/apps/encoders.py:114-135 | fails exactly on an unknown block or a non-register target; otherwise one `mpp` of the Z operator into the next register, a readout decoder appended and the counter advanced by one |
| SteaneAppsCompiler.Dispatch | src/qstack/layers/steane/compilers/apps/compiler.py:29-39 | a handler exists iff some row lists the name as its name or an alias, and it is that row's handler |
| SteaneAppsCompiler.HandlerNames | src/qstack/layers/steane/compilers/apps/compiler.py:29-39 | the dispatch table sends exactly the twelve names and aliases of the five gates to their handlers |
| SteaneAppsCompiler.DispatchDefinitions | src/qstack/layers/steane/compilers/apps/compiler.py:29-39 | the dictionary lookup is the last matching row first |
| SteaneAppsCompiler.Instructions | src/qstack/layers/steane/compilers/apps/compiler.py:47 | the filter keeps exactly the circuit's instructions: every result is an instruction taken from the circuit, every instruction of the circuit is kept, and there are as many as the circuit holds |
| SteaneAppsCompiler.InstructionsAppend | src/qstack/layers/steane/compilers/apps/compiler.py:47 | filtering a concatenation gives the concatenation of the filtered parts, so the filter keeps the circuit's order |
| SteaneAppsCompiler.CompileOne | src/qstack/layers/steane/compilers/apps/compiler.py:29-49 | a target without a block raises; `cx` raises exactly where the tracker update as written raises; otherwise the gadget is built at the old register counter (`BuiltAt`): for every handler but the readout, exactly the handler's gates over the instruction's blocks followed by the extraction of a group of tracked generators into registers from that counter on, with that group's table and a correcting decoder; for the readout, the single `mpp` of IZZIIIZ over the block into raw register `register_count` and a readout decoder from it into the register the first target names; on success the counter has advanced by exactly the registers the gadget's decoder reads |
| SteaneAppsCompiler.CompileInstruction | src/qstack/layers/steane/compilers/apps/compiler.py:47-49 | an unknown name raises; otherwise the gadget is the one the name's handler builds at the old register counter (`ProducedAt`, `BuiltAt` as in `CompileOne`), the counter advances by exactly the registers its decoder reads, and the blocks stay as they are |
| SteaneAppsCompiler.EveryNameKnown | src/qstack/layers/steane/compilers/apps/compiler.py:47-49 | when every instruction produced a gadget, every instruction name was in the table |
| SteaneAppsCompiler.ProducedSnoc | src/qstack/layers/steane/compilers/apps/compiler.py:49-53 | one more gadget carries the loop invariant and the circuit concatenation one step; `SteaneAppsCompiler.ProducedAtSnoc` and `SteaneAppsCompiler.StartsSnoc` carry the register invariant: the new gadget starts where the earlier ones left the counter |
| SteaneAppsCompiler.Compile | src/qstack/layers/steane/compilers/apps/compiler.py:24-68 | one gadget per instruction, gadget `k` being exactly what the handler of instruction `k` (in circuit order) builds over the blocks of seven consecutive qubits per logical qubit when the register counter stands at `Starts(register_count, gadgets)[k]`, the circuit's register count plus the registers gadgets 0 .. k-1 took (`ProducedAt`): its gates, the extraction into registers from that value on and the correcting decoder, or the readout into that register; the circuit is their concatenation; an unknown name makes it raise |
| SteaneAppsCompiler.CompiledRegistersFresh | src/qstack/stabilizers.py:83-86 | for the gadgets `compile` returns, gadget `k` reads the consecutive registers from the circuit's register count plus what gadgets 0 .. k-1 took (`SteaneAppsCompiler.StartsMeaning`), so every register a later gadget reads lies above every register an earlier one reads, and none lies below the circuit's own registers: the counter allocates monotonically and never hands out a register twice |
| SteaneAppsCompiler.StepKeepsLengths | src/qstack/layers/steane/compilers/apps/compiler.py:60-61 | no gadget decoder changes the lengths of the memory or the corrections |
| SteaneAppsCompiler.RunAllKeepsLengths | src/qstack/layers/steane/compilers/apps/compiler.py:60-61 | running every gadget decoder keeps both lengths |
| SteaneAppsCompiler.DecodedLength | src/qstack/layers/steane/compilers/apps/compiler.py:57-66 | the decoder returns `min(register_count, len(memory))` cells |
| SteaneAppsCompiler.RunGadget | src/qstack/layers/steane/compilers/apps/compiler.py:61 | calling one gadget decoder on the shared arrays leaves exactly the specified state, or raises when it does |
| SteaneAppsCompiler.Decode | src/qstack/layers/steane/compilers/apps/compiler.py:57-66 | the in-place decoder succeeds iff the specification does and returns its registers |
| SteaneAppsCompiler.RunAllSnoc | src/qstack/layers/steane/compilers/apps/compiler.py:60-61 | running one more decoder is one more step on the state so far |
| SteaneAppsCompiler.RunAllFailureStays | src/qstack/layers/steane/compilers/apps/compiler.py:60-61 | once a decoder raises, the whole decoder raises |
| RepetitionAppsCompiler.RegistersUsedStep | src/qstack/layers/repetition/compilers/apps/compiler.py:45-47 | one more encoded instruction adds its register count |
| RepetitionAppsCompiler.InsideGrows | src/qstack/layers/repetition/compilers/apps/compiler.py:45-47 | a decoder inside an allocation stays inside a larger one |
| RepetitionAppsCompiler.AppendInside | src/qstack/layers/repetition/compilers/apps/compiler.py:45-47 | appending a decoder inside the new allocation keeps every decoder inside |
| RepetitionAppsCompiler.PrepareZeroStep | src/qstack/layers/repetition/compilers/apps/compiler.py:47 | encoding a reset emits exactly the resets of the block and its syndrome extraction from the next free register, and appends one shaped syndrome decoder inside the registers it allocated |
| RepetitionAppsCompiler.XStep | src/qstack/layers/repetition/compilers/apps/compiler.py:47 | encoding an X emits exactly the X operator on the block and its syndrome extraction from the next free register, and appends one shaped syndrome decoder inside the registers it allocated |
| RepetitionAppsCompiler.MeasureStep | src/qstack/layers/repetition/compilers/apps/compiler.py:47 | encoding a readout emits exactly one `mpp` of ZII over the block into the next free register, and appends one readout decoder inside the register it allocated |
| RepetitionAppsCompiler.CompileOne | src/qstack/layers/repetition/compilers/apps/compiler.py:22-32 | only the reset, X and readout encoders succeed (`encode_h` and `encode_cx` raise a TypeError); each emits exactly its encoding of the instruction and appends its decoder |
| RepetitionAppsCompiler.CompileStep | src/qstack/layers/repetition/compilers/apps/compiler.py:45-47 | one loop turn succeeds exactly when the instruction has an encoding, emits exactly that encoding, appends exactly the decoder `DecoderOf` gives at the old counter (a syndrome decoder over the block's rows for `prepare_zero` and `x`, a decoder from the raw register into the encoded one for `measure_z`), and advances the counter by its register count |
| RepetitionAppsCompiler.EncodedCircuitStep | src/qstack/layers/repetition/compilers/apps/compiler.py:45-47 | one more instruction moves its encoding from the rest of the circuit onto the part built so far, or makes the whole circuit fail |
| RepetitionAppsCompiler.EveryNameEncodable | src/qstack/layers/repetition/compilers/apps/compiler.py:45-47 | when every instruction produced a decoder, every name was encodable |
| RepetitionAppsCompiler.Compile | src/qstack/layers/repetition/compilers/apps/compiler.py:18-63 | raises exactly when some instruction has no encoding; otherwise the circuit is the instructions' encodings concatenated in order, over blocks of three consecutive qubits with registers from the kernel's register count on, and the decoders are exactly `DecodersOf` the instructions, each built at the register counter its predecessors leave |
| RepetitionAppsCompiler.RunAllFailureStays | src/qstack/layers/repetition/compilers/apps/compiler.py:54-55 | once a decoder raises, the whole decoder raises |
| RepetitionAppsCompiler.RunAllSane | src/qstack/layers/repetition/compilers/apps/compiler.py:54-55 | shaped decoders whose indices exist never raise from a sane state, keep it sane and keep its lengths |
| RepetitionAppsCompiler.DecodeNeverFails | src/qstack/layers/repetition/compilers/apps/compiler.py:51-56 | starting from `StartCorrections` (identity III on every logical qubit), a compiled decoder on a memory covering the allocated registers never raises and returns `min(register_count, len(memory))` cells |
| RepetitionAppsCompiler.RunAllSnoc | src/qstack/layers/repetition/compilers/apps/compiler.py:54-55 | running one more decoder is one more step on the state so far |
| RepetitionAppsCompiler.RunDecoderOn | src/qstack/layers/repetition/compilers/apps/compiler.py:55 | calling one decoder on the shared arrays leaves exactly the specified state, or raises when it does |
| RepetitionAppsCompiler.Decode | src/qstack/layers/repetition/compilers/apps/compiler.py:51-56 | the in-place decoder succeeds iff the specification does and returns its registers |
| SteaneKernel.SupportsAreRows | src/qstack/compilers/steane.py:149-151 | the support lists are exactly the positions where each check row of `decode` is one, and the rows are bits |
| SteaneKernel.Handle | src/qstack/compilers/steane.py:174-179 | a gate without a handler is a KeyError; a handled gate gives a flat kernel with no target and no callback |
| SteaneKernel.TransversalGatesAreDisjoint | src/qstack/compilers/steane.py:18-37 | `Handle` dispatches x, z and h to `HandleTransversal` (the gate on "t.0" .. "t.6") and cx to `HandleCx`; a transversal single-qubit gate touches seven different qubits, and the transversal CX never pairs two different positions |
| SteaneKernel.PrepareZeroFollowsChecks | src/qstack/compilers/steane.py:40-63 | the preparation is H on qubits 4, 5, 6 and a fan-out from qubit `4+k` to the rest of check row `k`'s support, the one qubit only that row contains |
| SteaneKernel.PrepareZero | src/qstack/compilers/steane.py:40-63 | the preparation is a flat kernel of twelve gates, three H then nine CX, all on physical qubits "t.0" .. "t.6" of its target |
| SteaneKernel.ExtractionFollowsChecks | src/qstack/compilers/steane.py:66-111 | ancilla `k` couples to exactly check row `k`'s support: as control between two H layers for the X syndrome, as target for the Z syndrome |
| SteaneKernel.ExtractionShape | src/qstack/compilers/steane.py:90-113 | each extraction allocates "t.z.0" .. "t.z.2" three levels deep with its correction for `t` on the outermost level only |
| SteaneKernel.XSyndromeExtraction | src/qstack/compilers/steane.py:66-90 | builds exactly the specified X-syndrome kernel |
| SteaneKernel.ZSyndromeExtraction | src/qstack/compilers/steane.py:93-113 | builds exactly the specified Z-syndrome kernel |
| SteaneKernel.Fault | src/qstack/compilers/steane.py:117-126 | a syndrome names, if any, a position below seven |
| SteaneKernel.FaultTable | src/qstack/compilers/steane.py:117-126 | a position is named exactly for a nonzero three-bit syndrome, and different syndromes name different positions |
| SteaneKernel.FaultOfColumns | src/qstack/compilers/steane.py:117-126 | every column of the check rows is a key, and names its own position only for positions 4, 5, 6 |
| SteaneKernel.CorrectionShape | src/qstack/compilers/steane.py:129-144 | a correction exists exactly when the three latest outcomes are bits, not all zero, and is one gate on one physical qubit |
| SteaneKernel.CorrectX | src/qstack/compilers/steane.py:129-135 | consumes three outcomes and returns the X correction the syndrome names, if any |
| SteaneKernel.CorrectZ | src/qstack/compilers/steane.py:138-144 | consumes three outcomes and returns the Z correction the syndrome names, if any |
| SteaneKernel.Decode | src/qstack/compilers/steane.py:147-159 | succeeds iff seven outcomes are on the stack; then replaces them by the collected parity, and otherwise leaves the stack empty |
| SteaneKernel.CheckOfFlip | src/qstack/compilers/steane.py:149-151 | flipping bit `j` of a vector with an even check makes the check the row's entry at `j` |
| SteaneKernel.SumOfFlip | src/qstack/compilers/steane.py:159 | flipping one bit of a bit vector changes its sum by one |
| SteaneKernel.SyndromeOfFlip | src/qstack/compilers/steane.py:149-152 | the syndrome of a codeword with bit `j` flipped is column `j` of the check rows |
| SteaneKernel.TwoFlipsKeepParity | src/qstack/compilers/steane.py:157-159 | two single flips keep the parity |
| SteaneKernel.DecodeParityCorrect | src/qstack/compilers/steane.py:147-159 | `decode` collects the parity of a codeword, also after any single flip |
| SteaneKernel.DecodedBit | src/qstack/compilers/steane.py:147-159 | the collected value is a bit |
| SteaneKernel.DecodeCodeword | src/qstack/compilers/steane.py:147-159 | a codeword has the zero syndrome and decodes to its parity |
| SteaneKernel.DecodeSingleFlip | src/qstack/compilers/steane.py:147-159 | a codeword with any single flip decodes to the codeword's parity |
| SteaneKernel.FaultOfFlip | src/qstack/compilers/steane.py:149-153 | the syndrome of any single flip of a codeword names a position |
| SteaneKernel.TableMisplacesFirstFlip | src/qstack/compilers/steane.py:117-126 | the zero word is a codeword; flipping its position 0 gives syndrome (1,1,0), column 0, which the table as written sends to position 1, so `decode` turns 1000000 into 1100000, which is not a codeword |
| SteaneKernel.ColumnTableRestoresCodeword | src/qstack/compilers/steane.py:116-126 | with the Hamming table `ColumnFault` every check column names its own position, so correcting a codeword with one flipped bit gives back the codeword exactly, and its parity is the bit `decode` as written collects |
| SteaneKernel.Pairs | src/qstack/compilers/steane.py:206-212 | two extraction kernels per target |
| SteaneKernel.PairsAt | src/qstack/compilers/steane.py:206-212 | target `i` gets its Z extraction at position `2i` and its X extraction right after |
| SteaneKernel.PiecesStep | src/qstack/compilers/steane.py:198-212 | one more instruction appends its compiled form, or its error is the result |
| SteaneKernel.PiecesErrorStays | src/qstack/compilers/steane.py:198-212 | once an instruction fails, the list stays failed |
| SteaneKernel.ExtractionPairs | src/qstack/compilers/steane.py:206-212 | the extraction loop builds exactly the pairs for the targets |
| SteaneKernel.CompileKernel | src/qstack/compilers/steane.py:183-231 | `compile_kernel` returns exactly the specified compiled kernel or error |
| SteaneKernel.CompileBody | src/qstack/compilers/steane.py:198-212 | the instruction loop returns the compiled forms of all instructions or the first error |
| SteaneKernel.AppendInstruction | src/qstack/compilers/steane.py:198-212 | one loop turn appends instruction `i`'s compiled form, or returns its error |
| SteaneKernel.StartInstructions | src/qstack/compilers/steane.py:184-196 | the list starts with the preparation and, when there are instructions, a Z and an X extraction on the target |
| SteaneKernel.CompileInstruction | src/qstack/compilers/steane.py:199-212 | one loop turn: a nested kernel compiled recursively, a gate through its handler followed by its extraction pairs unless last |
| SteaneKernel.Assemble | src/qstack/compilers/steane.py:214-231 | the allocation and callbacks are exactly the specified assembly |
| SteaneKernel.PiecesBeforeLast | src/qstack/compilers/steane.py:198-212 | the forms of the instructions before the last hold one node per instruction and one extraction pair per gate target |
| SteaneKernel.ExtractionCount | src/qstack/compilers/steane.py:198-212 | one node per instruction plus one extraction pair per target of every gate but the last; the last compiles to one node |
| SteaneKernel.UnhandledInstructionFails | src/qstack/compilers/steane.py:201-204 | a classical instruction or an unhandled gate anywhere makes the compilation fail |
| SteaneKernel.PiecesFailAfter | src/qstack/compilers/steane.py:198-212 | a failing instruction makes the whole list fail |
| SteaneKernel.LevelOfWithCallback | src/qstack/compilers/steane.py:224-225 | wrapping the chain for the final callback keeps its levels below the top |
| SteaneKernel.CompiledShape | src/qstack/compilers/steane.py:183-231 | with a target, the seven physical qubits are allocated one level each with the decoding callback outermost, the compiled callback around them, and the innermost level starts with the preparation and, with instructions, a Z and an X extraction; without a target the shape is kept and the compiled callback attached |
| SteaneKernel.AllocatedLevels | src/qstack/compilers/steane.py:217-220 | allocating "t.0" .. "t.6" gives level `i` the target "t.i", the callback on the outermost level only, and the body innermost |
| Rep3TrivialKernel.MajorityVotes | src/qstack/compilers/rep3_trivial.py:16-23 | on bits the collected bit is one exactly when at least two outcomes are one, whatever their order |
| Rep3TrivialKernel.MajorityCorrectsOneFlip | src/qstack/compilers/rep3_trivial.py:16-23 | a repeated bit with at most one copy flipped decodes to that bit |
| Rep3TrivialKernel.Decode | src/qstack/compilers/rep3_trivial.py:16-23 | succeeds iff three outcomes are on the stack, then replaces them by their majority; otherwise leaves the stack empty |
| Rep3TrivialKernel.CompiledNodesStep | src/qstack/compilers/rep3_trivial.py:45-49 | one more instruction appends its compiled node, or its error is the result |
| Rep3TrivialKernel.CompiledNodesErrorStays | src/qstack/compilers/rep3_trivial.py:45-49 | once an instruction fails, the list stays failed |
| Rep3TrivialKernel.CompileKernel | src/qstack/compilers/rep3_trivial.py:42-68 | `compile_kernel` returns exactly the specified compiled kernel or error |
| Rep3TrivialKernel.CompileInstruction | src/qstack/compilers/rep3_trivial.py:46-49 | one loop turn: a nested kernel compiled recursively, a gate through its handler |
| Rep3TrivialKernel.TransversalGatesAreDisjoint | src/qstack/compilers/rep3_trivial.py:8-13 | `Handle` succeeds exactly on x or h with a target, through `HandleTransversal`, and its three physical gates act on three different qubits |
| Rep3TrivialKernel.Assemble | src/qstack/compilers/rep3_trivial.py:52-68 | the allocation and callbacks are exactly the specified assembly |
| Rep3TrivialKernel.OneNodePerInstruction | src/qstack/compilers/rep3_trivial.py:45-49 | each instruction compiles to exactly one node in order: a gate to its handler's kernel, a nested kernel to its compiled form, and no classical instruction survives |
| Rep3TrivialKernel.UnhandledInstructionFails | src/qstack/compilers/rep3_trivial.py:46-49 | a classical instruction or an unhandled gate anywhere makes the compilation fail |
| Rep3TrivialKernel.CompiledShape | src/qstack/compilers/rep3_trivial.py:52-64 | with a target, the three physical qubits are allocated one level each with the decoding callback outermost and the compiled instructions innermost, wrapped for the compiled callback when there is one |
| KernelGates.PhysicalDistinct | src/qstack/compilers/steane.py:19-19 | the names "t.i" and "t.j" of two different physical indices are different qubits |
| KernelGates.PhysicalNamesDistinct | src/qstack/compilers/rep3_trivial.py:54 | the names `PhysicalNames` passes to `allocate` wrap to "t.0", "t.1", .., pairwise different qubits |
| KernelGates.OnEachDistinct | src/qstack/compilers/rep3_trivial.py:9-13 | the transversal gates `OnEach` builds (gate `i` on "t.i") act on pairwise different physical qubits |
| ClassicProcessing.ClassicProcessor.constructor | src/qstack/classic_processor.py:7-8 | keeps the given instructions; the stack does not exist yet |
| ClassicProcessing.ClassicProcessor.Restart | src/qstack/classic_processor.py:10-11 | the stack is empty |
| ClassicProcessing.ClassicProcessor.Collect | src/qstack/classic_processor.py:13-14 | the outcome is pushed on top of the stack |
| ClassicProcessing.ClassicProcessor.Consume | src/qstack/classic_processor.py:16-18 | on a non-empty stack returns the latest outcome and removes it; on an empty one returns nothing and leaves it empty |
| ClassicProcessing.ClassicProcessor.Eval | src/qstack/classic_processor.py:20-21 | every classical instruction continues with the empty kernel |
| ClassicProcessing.CollectThenConsume | src/qstack/classic_processor.py:13-18 | `collect(v)` then `consume()` gives back `v` and restores the stack (last in, first out) |
| ClassicProcessing.Remaining | src/qstack/classic_processor.py:16-18 | `n` pops leave the bottom of the stack, empty once `n` reaches its size |
| ClassicProcessing.ConsumeMany | src/qstack/classic_processor.py:16-18 | `n` calls of `consume` return exactly `Popped` (newest outcome first, then `None` once the stack is empty) and leave `Remaining`, the stack without its `n` newest outcomes |
| ClassicProcessing.PoppedLastFirst | src/qstack/classic_processor.py:13-18 | last in, first out: after collecting `o`, the first `consume` returns `o` and the later ones see the older stack; an empty stack gives `None` |
| Ast.WrapIdempotent | src/qstack/ast.py:13-17 | wrapping a wrapped id gives it back, wrapping the id's own value gives the same id, and different names wrap to different ids |
| Ast.FlatSubDepth | src/qstack/ast.py:76-78 | without nested kernels the sub-kernel depth is zero |
| Ast.SubDepthIsMax | src/qstack/ast.py:76-81 | the sub-kernel depth bounds every nested kernel's depth and, when positive, is reached by one of them (the `max`); with `Ast.SubDepthOfInstructions`, it depends on the instructions only |
| Ast.Empty | src/qstack/ast.py:105-107 | the empty kernel has no target, no instructions, no callback and depth zero |
| Ast.ContinueWith | src/qstack/ast.py:131-133 | a kernel with only the callback, of depth zero |
| Ast.ChainLevels | src/qstack/ast.py:118-124 | level `k` of the chain allocates `targets[k]`, each level above the last holds exactly the next one and no callback, the last holds the instructions |
| Ast.ChainDepth | src/qstack/ast.py:74-81 | over flat instructions the chain for `n` targets has depth `n` |
| Ast.AllocatedShape | src/qstack/ast.py:110-129 | over flat instructions the depth is the number of targets, the callback sits on the outermost kernel only, and no targets keeps the instructions |
| Ast.Allocate | src/qstack/ast.py:110-129 | the inside-out loop builds exactly the specified chain with the callback outermost |
| Encoder.EncodeStep | src/qstack/encoder.py:5-10 | every step becomes a gadget: a nested gadget encoded, an instruction by the layer's encoding |
| Encoder.EncodeListShape | src/qstack/encoder.py:13-15 | a list is absent after encoding exactly when it was absent or empty; otherwise it keeps its length, every step is a gadget, a nested gadget is encoded in place one level up with its name kept, and an instruction is replaced by its layer encoding |
| Encoder.EncodeKeepsShape | src/qstack/encoder.py:4-18 | encoding keeps the name, the decoder and the number of steps and raises the level by one (by two when applied twice) |
| Circuit.MentionsPrefix | src/qcir/circuit.py:89-90 | a target is mentioned by one more element exactly when it was already, or that element lists it |
| Circuit.MaxRegister | src/qcir/circuit.py:87-94 | succeeds exactly when every element has targets, and returns a non-negative bound on every register id that is 0 or itself used |
| Circuit.MaxQubit | src/qcir/circuit.py:97-104 | succeeds exactly when every element has targets, and returns a non-negative bound on every qubit id that is 0 or itself used |
| Circuit.CircuitDimensionsAsWritten | src/qcir/circuit.py:107-124 | the loop computes exactly the as-written dimensions, whose qubit comparison is against the register maximum |
| Circuit.DimensionsAsWritten | src/qcir/circuit.py:107-124 | the as-written dimensions fail exactly where the corrected ones do, and count the instructions |
| Circuit.TargetsAsWrittenFails | src/qcir/circuit.py:115-123 | the as-written inner loop fails exactly at a target that is neither a qubit nor a register id |
| Circuit.ElementsAsWrittenFacts | src/qcir/circuit.py:109-124 | the as-written outer loop fails exactly when an instruction lacks targets or has one of neither kind, and otherwise adds the number of instructions to its count |
| Circuit.DimensionsAsWrittenUndercounts | src/qcir/circuit.py:119-121 | on one CX from qubit 2 to qubit 0 the as-written loop reports one qubit although qubit 2 is used |
| Circuit.CircuitDimensions | src/qcir/circuit.py:107-124 | succeeds exactly when every instruction has only qubit and register targets; returns the instruction count and one more than the largest qubit and register ids, each tight, 0 when unused |
| Circuit.TargetMaxima | src/qcir/circuit.py:115-123 | the inner loop fails exactly at a target of neither kind, and otherwise returns tight running maxima for qubit and register ids |
| InstructionPasses.ZipCheckMeaning | src/qstack/compilers/passes.py:15-18 | over a signature without `...` the `zip` loop answers whether every pair up to the shorter list matches |
| InstructionPasses.TypeCheckMeaning | src/qstack/compilers/passes.py:6-18 | on a well-formed signature `type_check` raises only for an empty signature or a bare `...` given values, and otherwise answers exactly what the signature accepts |
| InstructionPasses.EllipsisDropped | src/qstack/compilers/passes.py:7-9 | with a trailing `...` and one value fewer than entries the `...` is dropped and the answer is acceptance |
| InstructionPasses.EllipsisRepeated | src/qstack/compilers/passes.py:10-12 | with a trailing `...` and at least as many values as entries the type before it is repeated and the answer is acceptance |
| InstructionPasses.ValidateMeaning | src/qstack/compilers/passes.py:21-32 | the current pass accepts exactly the instructions whose targets its signature accepts and whose parameters its parameter signature accepts, or that have none when the definition has none; it never raises on such definitions |
| InstructionPasses.Validate | src/qstack/compilers/passes.py:21-32 | a reported problem is bad targets, bad parameters or unexpected parameters, at the instruction's position and with its name; it raises only when a `type_check` raises |
| InstructionPasses.LegacyParameterErrorMeaning | src/compilers/passes.py:11-14 | the legacy parameter loop passes exactly when every pair up to the shorter list matches |
| InstructionPasses.CheckParametersLegacy | src/compilers/passes.py:11-14 | the loop returns exactly the specified first parameter error |
| InstructionPasses.ValidateLegacyMeaning | src/compilers/passes.py:6-19 | the legacy pass reports bad targets exactly when the type lists differ (`TypesOf`: one runtime type per target, in order), raises on a mismatching parameter instead of reporting it, and otherwise accepts |
| InstructionPasses.ValidateLegacy | src/compilers/passes.py:6-19 | a reported problem is bad targets or unexpected parameters at the instruction's position, never bad parameters; it raises only when the targets match and the definition has parameters |
| InstructionPasses.ValidateLegacyInstruction | src/compilers/passes.py:6-19 | computes exactly the legacy verdict for one instruction |
| InstructionPasses.WithAliasesResolves | src/qstack/compilers/passes.py:46-48 | after the alias loop each alias points at the definition and every other name keeps its entry |
| InstructionPasses.TableResolves | src/qstack/compilers/passes.py:43-48 | a name is in the table exactly when some definition has it as name or alias, and resolves to such a definition |
| InstructionPasses.BuildTable | src/qstack/compilers/passes.py:43-48 | the loop builds exactly the specified name table |
| InstructionPasses.ScanFacts | src/qstack/compilers/passes.py:50-62 | every unknown name and every failed check is reported, the used definitions are exactly those of passing instructions, and no problem is found exactly when all pass |
| InstructionPasses.ScanCrashes | src/compilers/passes.py:39-50 | the pass raises exactly when some known instruction's check raises |
| InstructionPasses.ScanEntry | src/qstack/compilers/passes.py:52-62 | one loop turn: a non-instruction changes nothing, an unknown name adds its problem, a known one adds its problem, its definition, or stops the pass |
| InstructionPasses.VerifyInstructions | src/qstack/compilers/passes.py:35-67 | the pass computes exactly the specified verdict |
| InstructionPasses.ScanErrorStays | src/compilers/passes.py:39-50 | once the scan raises, it stays failed |
| InstructionPasses.VerdictMeaning | src/qstack/compilers/passes.py:35-67 | a completed pass is valid exactly when every instruction is known and passes its check, then returns exactly the definitions of the instructions, and an invalid verdict carries at least one problem |

The repetition library's `update_syndrome_value` and `stabilizer_decoder`
(src/qstack/layers/repetition/compilers/apps/gadgets.py:50-73) are the same
code as the shared ones in src/qstack/stabilizers.py. They are modelled once,
by `LookupTables.UpdateSyndromeValue` and by the `Lookup` decoder of
`Decoders`; only the table differs (`build_error_lookup`).

## Left out

- Simulators, backends, noise models, rendering (`print`, `__repr__`, `save`), logging and matplotlib/IPython output are not part of this model. Log messages are dropped: `find_syndromes` logs on a trivial or conflicting syndrome but changes nothing then.
- Exception texts are short descriptions in `Result.Err`, not Python's messages. Kernel and instruction names with their 4-digit counter padding are not modelled beyond what the contracts mention.
- Python sets are duplicate-free sequences, and their order stands for the set's iteration order. In the source a syndrome's bit order, and the key under which a table is memoized, depend on that order. The model fixes one order and proves its properties for every order.
- `isinstance` on values is modelled by comparing the names of runtime types, so subclassing is not modelled. Complex and floating-point parameters are not modelled.
- Paulis.ByCz: `by_cz` is called by the phase-flip `h` gadget but not defined in src/qstack/paulis.py. It is supplied in the style of `by_cx` (Z picks up the other qubit's X, the signs are kept).
- SteaneGadgets.NewContext: the Steane gadgets build `Context` without the `distance` that src/qstack/stabilizers.py:76 requires. The model takes the distance as a parameter.
- RepetitionAppsCompiler.CompileOne: `encode_h` and `encode_cx` take one argument but `compile` passes two, so the model returns the resulting TypeError.
- RepetitionAppsCompiler.Compile: the returned kernel's name, its empty instruction set and the text of the circuit are not modelled; the circuit is its list of instructions.
- SteaneAppsCompiler.Decode: the compiled decoder returns the first `register_count` memory cells. It does not model the input gadget's own decoder, which src/qstack/layers/steane/compilers/apps/compiler.py:63-64 applies to those cells when one is present, because that decoder is arbitrary code.
- Rep3Bit.MeasureZ: an encoded-register target that is not a qubit or register id, or whose id is negative, makes the model's gadget fail when it is built. The source builds the gadget, and only its decoder fails (an `AttributeError`) or writes to `memory[-k]`, counted from the end of the memory. Indexing from the end is not modelled.
- Rep3Phase.MeasureZ: the same early failure for an encoded-register target that is not a qubit or register id, or is negative.
- SteaneGadgets.MeasureZ: the same early failure for an encoded-register target that is not a qubit or register id, or is negative.
- RepetitionGadgets.MeasureZ: the same early failure for an encoded-register target that is not a qubit or register id, or is negative.
- RepetitionEncoders.EncodeMeasure: the same early failure for an encoded-register target that is not a qubit or register id, or is negative.
- RepetitionEncoders.MppRows: a letter other than I, X, Y, Z in a stabilizer row becomes I. The `attributes` the encoders copy from the instruction onto the instructions they emit are dropped here and in every gadget library.
- How the compilers use circuits: the apps compilers read `inst.name`, `circuit.qubit_count` and `circuit.register_count`. They build `Circuit([])` (src/qstack/layers/steane/compilers/apps/compiler.py:51) or `Circuit(kernel.name, [])` (src/qstack/layers/repetition/compilers/apps/compiler.py:34) and extend it with `+=`. The `Instruction` and `Circuit` of src/qcir/circuit.py:47-72 provide none of this: the name field is `operation`, there are no counts, the constructor takes three fields and there is no `+=`. The model follows the compilers' intent: an instruction's name is its `operation`, the two counts are inputs, and a circuit is its list of elements, concatenated. The same holds for both validation passes (src/qstack/compilers/passes.py:54-57, src/compilers/passes.py:41-44): they read `inst.name` of a qcir instruction, which as written raises an AttributeError. `InstructionPasses.Scan`, `InstructionPasses.VerifyInstructions` and the legacy pass are modelled on an instruction whose `name` is that `operation`.
- Instruction definitions: the dispatch tables and the validation passes read `name`, `aliases`, `targets` and `parameters` of an `InstructionDefinition`. That class, in src/qstack/instruction_definition.py, is not part of this model and declares only `names` and `matrix`. The model gives a definition exactly the four fields that are read.
- InstructionPasses.Validate: an instruction's `targets` or `parameters` that is `None` is an empty list in the model. In the source, `None` targets make `type_check` and the legacy comparison raise a TypeError. So do `None` parameters when the definition has parameters.
- SteaneKernel.FaultTable: `syndrome_table` (src/qstack/compilers/steane.py:117-126) is modelled literally. For qubits 0 to 3 its positions do not match the check columns. `decode` still gets the parity right for every single flip (`SteaneKernel.DecodeSingleFlip`), but `correct_x`/`correct_z` are not proved to fix the flipped qubit; the mismatch is logged under "## Findings".
- Compiler, base compiler and `compile_callback`: the kernel compilers receive the callback compiler as a parameter (`KernelGates.CallbackCompiler`), because the compiler base is not part of this model. The kernel compilers take the kernel as given. The decomposition pass `decompose.run`, which only the apps compilers call (src/qstack/layers/steane/compilers/apps/compiler.py:26, src/qstack/layers/repetition/compilers/apps/compiler.py:20), is not modelled: `SteaneAppsCompiler.Compile` and `RepetitionAppsCompiler.Compile` take the circuit that pass would return.
- ClassicProcessing.ClassicProcessor.Collect: `collect` and `consume` (`Collect`, `Consume`) require `restarted`, so they cannot be called on a processor that was never restarted. In src/qstack/classic_processor.py:7-18 the `measurements` list exists only after `restart`, and an earlier call raises an AttributeError; that error path is not modelled.
- `ClassicDefinition` and `ClassicContext` are not part of this model. A callback is a value, and the correction callbacks act on `ClassicProcessing.ClassicProcessor` directly.
- Encoder.EncodeStep: src/qstack/encoder.py builds `Gadget(name, level, prepare, compute, measure, decode)`, but src/qstack/gadget.py declares only `name`, `circuit`, `decoder` and `metadata`. The model follows encoder.py's own view of a gadget.
- `Kernel.print`, the parser and the instruction-set registries are not part of this model.

## Findings

| source | as written | input that shows it | evidently intended | confidence | as-written member | corrected member |
|---|---|---|---|---|---|---|
| src/qcir/circuit.py:119-121 | the qubit maximum is updated only when a qubit id exceeds the register maximum `max_r` | the circuit `[cx 2 0]` gives 1 qubit, 0 registers, 1 instruction | a qubit id is compared with the qubit maximum `max_q`, giving 3 qubits | high, not executed | Circuit.DimensionsAsWrittenUndercounts | Circuit.CircuitDimensions |
| src/qstack/layers/rep3_phase/compilers/apps/gadgets.py:86-93 | `cx` removes each member of the group after padding it with I outside the two blocks, conjugates it and re-adds it. A tracked generator that also acts outside the two blocks is not in the tracker in that padded form, so the removal raises KeyError | the program `prepare_zero 0`, `prepare_zero 1`, `prepare_zero 2`, `cx 0 1`, `cx 0 2`: after `cx 0 1` the tracker holds `XXI XXI III`, the image of block 0's XXI, and `cx 0 2` then raises; the lemma starts from that tracked generator alone, and any other tracked generators do not prevent the failure | every tracked generator acting on the two blocks is conjugated over all qubits and kept | medium, not executed | Rep3Phase.CxSpanningGeneratorFails | Rep3Phase.CxSpanningGeneratorCorrected |
| src/qstack/layers/steane/compilers/apps/gadgets.py:94-100 | the Steane `cx` updates the tracker the same way: each group member is padded with I outside the two blocks before it is removed, so a tracked generator that also acts outside them raises KeyError | the program `prepare_zero 0`, `prepare_zero 1`, `prepare_zero 2`, `cx 0 1`, `cx 0 2`: after `cx 0 1` block 0's X generators act on block 1 as well, and `cx 0 2` then raises; the lemma starts from one such spanning generator, X on qubits 0 and 7 | every tracked generator acting on the two blocks is conjugated there in place and kept | medium, not executed | SteaneGadgets.CxSpanningGeneratorFails | SteaneGadgets.ApplyCxCorrected |
| src/qstack/compilers/steane.py:117-126 | `syndrome_table` sends the check column of positions 0 to 3 to another position: (1,1,0) to 1, (1,0,1) to 2, (0,1,1) to 3, (1,1,1) to 0 | in `decode`, the outcomes 1000000 (the zero codeword with position 0 flipped) have syndrome (1,1,0); the table flips position 1 and leaves 1100000, which is not a codeword (the collected parity is still right) | each syndrome names the position whose check column it is, as in Hamming decoding: (1,1,0) to 0, (1,0,1) to 1, (0,1,1) to 2, (1,1,1) to 3 | medium, not executed | SteaneKernel.TableMisplacesFirstFlip | SteaneKernel.ColumnTableRestoresCodeword |

The Steane apps compiler dispatches `cx` to the gadget as written (`SteaneGadgets.ApplyCx`), so its contracts describe what the repository compiles, including the `KeyError` above. `SteaneGadgets.ApplyCxCorrected` is the corrected gadget. Likewise the Steane kernel compiler keeps `syndrome_table` as written (`SteaneKernel.Fault`): `decode` collects only the parity, which the corrected table (`SteaneKernel.ColumnFault`) gives as well, while `correct_x` and `correct_z` would apply their gate to the position the table names.
