/** The validation passes over a flat circuit: every instruction must name
    a known definition (by name or alias) and match its target and parameter
    signature; the pass collects every problem, fails when there is any,
    and otherwise returns the definitions used. Values are represented by
    the names of their runtime types. */
module InstructionPasses {
  import opened Wrappers

  /** The runtime type of a value, by name. */
  type Kind = string

  /** An entry of a signature: a type, or the trailing `...` that repeats
      the type before it. */
  datatype TypeEntry = Type(kind: Kind) | Ellipsis

  /** An instruction definition as the passes read it (no aliases is an
      empty list). */
  datatype Definition = Definition(name: string, aliases: seq<string>, targets: seq<TypeEntry>, parameters: seq<TypeEntry>)

  /** An instruction: its name and the runtime types of its targets and
      parameters. */
  datatype Instruction = Instruction(name: string, targets: seq<Kind>, parameters: seq<Kind>)

  /** A circuit entry: an instruction, or a comment, attribute or tick. */
  datatype Entry = Instr(inst: Instruction) | NotInstruction

  /** The problems the passes report, each with its position. */
  datatype Problem =
    | InvalidTargets(pos: nat, name: string)
    | InvalidParameters(pos: nat, name: string)
    | UnexpectedParameters(pos: nat, name: string)
    | UnknownInstruction(pos: nat, name: string)

  // ---------------------------------------------------------------------
  // type_check

  /** The `zip` loop of `type_check`: pairs are checked in order up to the
      shorter list; `isinstance` against `...` is a TypeError. */
  function ZipCheck(values: seq<Kind>, expected: seq<TypeEntry>): Result<bool>
    decreases |values|
  {
    if |values| == 0 || |expected| == 0 then Ok(true)
    else if expected[0].Ellipsis? then Err(IsinstanceError)
    else if values[0] != expected[0].kind then Ok(false)
    else ZipCheck(values[1..], expected[1..])
  }

  /** `type_check`: a trailing `...` is dropped when exactly one value
      fewer than entries is given, repeats the type before it up to the
      number of values when there are at least as many values as entries,
      and rejects anything shorter; an empty signature, or a bare `...`
      given values, is an IndexError. */
  function TypeCheck(values: seq<Kind>, expected: seq<TypeEntry>): Result<bool> {
    if |expected| == 0 then Err("IndexError: tuple index out of range")
    else if expected[|expected| - 1].Ellipsis? then
      if |values| == |expected| - 1 then ZipCheck(values, expected[..|expected| - 1])
      else if |values| >= |expected| then
        if |expected| < 2 then Err("IndexError: list index out of range")
        else ZipCheck(values, expected[..|expected| - 1] + seq(|values| - (|expected| - 1), _ => expected[|expected| - 2]))
      else Ok(false)
    else ZipCheck(values, expected)
  }

  /** `...` appears at most as the last entry. */
  predicate WellFormed(expected: seq<TypeEntry>) {
    forall i :: 0 <= i < |expected| - 1 ==> expected[i].Type?
  }

  function Min(a: nat, b: nat): nat { if a <= b then a else b }

  /** What a signature accepts. Without `...`, only the pairs up to the
      shorter list are compared. With a trailing `...`, the values must
      number one fewer than the entries or more, and every value must have
      the type at its position, the last type standing for every position
      past it. */
  predicate Accepts(values: seq<Kind>, expected: seq<TypeEntry>)
    requires |expected| >= 1 && WellFormed(expected)
  {
    if expected[|expected| - 1].Type? then
      forall i :: 0 <= i < Min(|values|, |expected|) ==> values[i] == expected[i].kind
    else if |expected| == 1 then |values| == 0
    else
      |values| >= |expected| - 1 &&
      forall i :: 0 <= i < |values| ==> values[i] == expected[Min(i, |expected| - 2)].kind
  }

  lemma {:induction false} ZipCheckMeaning(values: seq<Kind>, expected: seq<TypeEntry>)
    requires forall i :: 0 <= i < |expected| ==> expected[i].Type?
    ensures ZipCheck(values, expected) ==
            Ok(forall i :: 0 <= i < Min(|values|, |expected|) ==> values[i] == expected[i].kind)
    decreases |values|
  {
    if |values| > 0 && |expected| > 0 && values[0] == expected[0].kind {
      ZipCheckMeaning(values[1..], expected[1..]);
      assert forall i :: 1 <= i < Min(|values|, |expected|) ==>
               (values[i] == expected[i].kind <==> values[1..][i - 1] == expected[1..][i - 1].kind);
    }
  }

  /** On a well-formed signature, `type_check` fails only on an empty
      signature or a bare `...` given values, and otherwise answers exactly
      `Accepts`. */
  lemma TypeCheckMeaning(values: seq<Kind>, expected: seq<TypeEntry>)
    requires WellFormed(expected)
    ensures TypeCheck(values, expected).Err? <==>
              |expected| == 0 || (|expected| == 1 && expected[0].Ellipsis? && |values| >= 1)
    ensures TypeCheck(values, expected).Ok? ==> (TypeCheck(values, expected).value <==> Accepts(values, expected))
  {
    var n := |expected|;
    if n == 0 {
    } else if expected[n - 1].Type? {
      ZipCheckMeaning(values, expected);
    } else if |values| == n - 1 {
      EllipsisDropped(values, expected);
    } else if |values| >= n && n >= 2 {
      EllipsisRepeated(values, expected);
    }
  }

  /** A trailing `...` with one value fewer than entries. */
  lemma EllipsisDropped(values: seq<Kind>, expected: seq<TypeEntry>)
    requires WellFormed(expected) && |expected| >= 1 && expected[|expected| - 1].Ellipsis?
    requires |values| == |expected| - 1
    ensures TypeCheck(values, expected) == Ok(Accepts(values, expected))
  {
    var n := |expected|;
    var front := expected[..n - 1];
    ZipCheckMeaning(values, front);
    assert Min(|values|, |front|) == |values|;
    if n >= 2 {
      assert forall i :: 0 <= i < |values| ==> expected[Min(i, n - 2)] == front[i];
    }
  }

  /** A trailing `...` with at least as many values as entries. */
  lemma EllipsisRepeated(values: seq<Kind>, expected: seq<TypeEntry>)
    requires WellFormed(expected) && |expected| >= 2 && expected[|expected| - 1].Ellipsis?
    requires |values| >= |expected|
    ensures TypeCheck(values, expected) == Ok(Accepts(values, expected))
  {
    var n := |expected|;
    var full := expected[..n - 1] + seq(|values| - (n - 1), _ => expected[n - 2]);
    assert TypeCheck(values, expected) == ZipCheck(values, full);
    assert |full| == |values|;
    forall i | 0 <= i < |full|
      ensures full[i] == expected[Min(i, n - 2)]
    {
      if i < n - 1 {
        assert full[i] == expected[i];
      } else {
        assert full[i] == expected[n - 2];
      }
    }
    ZipCheckMeaning(values, full);
  }

  // ---------------------------------------------------------------------
  // _is_valid_instruction

  /** `_is_valid_instruction` of the current pass: the targets must pass
      `type_check`; a definition with parameters checks them the same way,
      one without rejects any given. `None` means valid. */
  function Validate(idx: nat, inst: Instruction, def: Definition): (r: Result<Option<Problem>>)
    ensures r.Ok? && r.value.Some? ==>
              r.value.value in {InvalidTargets(idx, inst.name), InvalidParameters(idx, inst.name), UnexpectedParameters(idx, inst.name)}
    ensures r.Err? ==> TypeCheck(inst.targets, def.targets).Err? || TypeCheck(inst.parameters, def.parameters).Err?
  {
    match TypeCheck(inst.targets, def.targets)
    case Err(e) => Err(e)
    case Ok(false) => Ok(Some(InvalidTargets(idx, inst.name)))
    case Ok(true) =>
      if |def.parameters| > 0 then
        match TypeCheck(inst.parameters, def.parameters)
        case Err(e) => Err(e)
        case Ok(false) => Ok(Some(InvalidParameters(idx, inst.name)))
        case Ok(true) => Ok(None)
      else if |inst.parameters| > 0 then Ok(Some(UnexpectedParameters(idx, inst.name)))
      else Ok(None)
  }

  /** On a definition with well-formed signatures, the current pass accepts
      exactly the instructions whose targets, and parameters when the
      definition has some, its signatures accept, and when the definition
      has none, an instruction without parameters. */
  lemma ValidateMeaning(idx: nat, inst: Instruction, def: Definition)
    requires WellFormed(def.targets) && WellFormed(def.parameters)
    requires |def.targets| >= 1 && !(|def.targets| == 1 && def.targets[0].Ellipsis?)
    requires !(|def.parameters| == 1 && def.parameters[0].Ellipsis?)
    ensures Validate(idx, inst, def) == Ok(None) <==>
              Accepts(inst.targets, def.targets) &&
              (if |def.parameters| > 0 then Accepts(inst.parameters, def.parameters) else |inst.parameters| == 0)
    ensures Validate(idx, inst, def).Ok?
  {
    TypeCheckMeaning(inst.targets, def.targets);
    TypeCheckMeaning(inst.parameters, def.parameters);
  }

  /** The runtime types of the targets, as the legacy pass lists them. */
  function TypesOf(kinds: seq<Kind>): (r: seq<TypeEntry>)
    ensures |r| == |kinds| && forall i :: 0 <= i < |kinds| ==> r[i] == Type(kinds[i])
  {
    seq(|kinds|, i requires 0 <= i < |kinds| => Type(kinds[i]))
  }

  /** The two errors of the parameter check: `isinstance` given the
      ellipsis, and a parameter of another type. */
  const IsinstanceError := "TypeError: isinstance() arg 2 must be a type"
  const ParameterTypeError := "AssertionError: Expecting parameter of another type"

  /** The legacy parameter loop: the first zipped pair whose value is not
      of the expected type fails an assertion at once (or is a TypeError
      against `...`); surplus values are not looked at. */
  function LegacyParameterError(expected: seq<TypeEntry>, actual: seq<Kind>): Option<string>
    decreases |expected|
  {
    if |expected| == 0 || |actual| == 0 then None
    else if expected[0].Ellipsis? then Some(IsinstanceError)
    else if actual[0] != expected[0].kind then Some(ParameterTypeError)
    else LegacyParameterError(expected[1..], actual[1..])
  }

  lemma {:induction false} LegacyParameterErrorMeaning(expected: seq<TypeEntry>, actual: seq<Kind>)
    ensures LegacyParameterError(expected, actual).None? <==>
              forall i :: 0 <= i < Min(|expected|, |actual|) ==> expected[i] == Type(actual[i])
    decreases |expected|
  {
    if |expected| > 0 && |actual| > 0 && expected[0] == Type(actual[0]) {
      LegacyParameterErrorMeaning(expected[1..], actual[1..]);
      assert forall i :: 1 <= i < Min(|expected|, |actual|) ==>
               (expected[i] == Type(actual[i]) <==> expected[1..][i - 1] == Type(actual[1..][i - 1]));
    }
  }

  /** The legacy parameter loop. */
  method CheckParametersLegacy(expected: seq<TypeEntry>, actual: seq<Kind>) returns (error: Option<string>)
    ensures error == LegacyParameterError(expected, actual)
  {
    var i := 0;
    while i < |expected| && i < |actual|
      invariant 0 <= i <= |expected| && i <= |actual|
      invariant LegacyParameterError(expected, actual) == LegacyParameterError(expected[i..], actual[i..])
    {
      if expected[i].Ellipsis? {
        return Some(IsinstanceError);
      }
      if actual[i] != expected[i].kind {
        return Some(ParameterTypeError);
      }
      assert expected[i..][1..] == expected[i + 1..] && actual[i..][1..] == actual[i + 1..];
      i := i + 1;
    }
    return None;
  }

  /** `_is_valid_instruction` of the legacy pass: the definition's targets
      must equal the targets' runtime types exactly; parameters are checked
      by the legacy loop, whose failure is an error of the whole pass. */
  function ValidateLegacy(idx: nat, inst: Instruction, def: Definition): (r: Result<Option<Problem>>)
    ensures r.Ok? && r.value.Some? ==> r.value.value in {InvalidTargets(idx, inst.name), UnexpectedParameters(idx, inst.name)}
    ensures r.Err? ==> def.targets == TypesOf(inst.targets) && |def.parameters| > 0
  {
    if def.targets != TypesOf(inst.targets) then Ok(Some(InvalidTargets(idx, inst.name)))
    else if |def.parameters| > 0 then
      match LegacyParameterError(def.parameters, inst.parameters)
      case Some(e) => Err(e)
      case None => Ok(None)
    else if |inst.parameters| > 0 then Ok(Some(UnexpectedParameters(idx, inst.name)))
    else Ok(None)
  }

  /** The legacy pass reports bad targets exactly when the type lists
      differ (length and order included), fails on a mismatching parameter
      rather than reporting it, and otherwise accepts. */
  lemma ValidateLegacyMeaning(idx: nat, inst: Instruction, def: Definition)
    ensures ValidateLegacy(idx, inst, def) == Ok(Some(InvalidTargets(idx, inst.name))) <==> def.targets != TypesOf(inst.targets)
    ensures ValidateLegacy(idx, inst, def).Err? <==>
              def.targets == TypesOf(inst.targets) && |def.parameters| > 0 &&
              exists i :: 0 <= i < Min(|def.parameters|, |inst.parameters|) && def.parameters[i] != Type(inst.parameters[i])
    ensures ValidateLegacy(idx, inst, def) == Ok(None) <==>
              def.targets == TypesOf(inst.targets) &&
              if |def.parameters| > 0
              then forall i :: 0 <= i < Min(|def.parameters|, |inst.parameters|) ==> def.parameters[i] == Type(inst.parameters[i])
              else |inst.parameters| == 0
  {
    LegacyParameterErrorMeaning(def.parameters, inst.parameters);
  }

  /** The legacy `_is_valid_instruction`. */
  method ValidateLegacyInstruction(idx: nat, inst: Instruction, def: Definition) returns (r: Result<Option<Problem>>)
    ensures r == ValidateLegacy(idx, inst, def)
  {
    if def.targets != TypesOf(inst.targets) {
      return Ok(Some(InvalidTargets(idx, inst.name)));
    }
    if |def.parameters| > 0 {
      var error := CheckParametersLegacy(def.parameters, inst.parameters);
      if error.Some? {
        return Err(error.value);
      }
    } else if |inst.parameters| > 0 {
      return Ok(Some(UnexpectedParameters(idx, inst.name)));
    }
    return Ok(None);
  }

  // ---------------------------------------------------------------------
  // verify_instructions

  /** Every definition under its name and its aliases; a later definition
      replaces an earlier one under the same name. */
  function TableOf(defs: seq<Definition>): map<string, Definition>
    decreases |defs|
  {
    if |defs| == 0 then map[]
    else WithAliases(TableOf(defs[..|defs| - 1])[defs[|defs| - 1].name := defs[|defs| - 1]], defs[|defs| - 1], |defs[|defs| - 1].aliases|)
  }

  /** `table` with the first `n` aliases of `def` pointing at it. */
  function WithAliases(table: map<string, Definition>, def: Definition, n: nat): map<string, Definition>
    requires n <= |def.aliases|
  {
    if n == 0 then table else WithAliases(table, def, n - 1)[def.aliases[n - 1] := def]
  }

  lemma {:induction false} WithAliasesResolves(table: map<string, Definition>, def: Definition, n: nat)
    requires n <= |def.aliases|
    ensures forall s :: s in WithAliases(table, def, n) <==> s in table || s in def.aliases[..n]
    ensures forall s :: s in WithAliases(table, def, n) ==>
              WithAliases(table, def, n)[s] == (if s in def.aliases[..n] then def else table[s])
  {
    if n > 0 {
      WithAliasesResolves(table, def, n - 1);
      assert def.aliases[..n] == def.aliases[..n - 1] + [def.aliases[n - 1]];
    }
  }

  /** A name is in the table exactly when some definition has it as its
      name or an alias, and it then resolves to such a definition. */
  lemma {:induction false} TableResolves(defs: seq<Definition>)
    ensures forall s :: s in TableOf(defs) <==> exists d :: d in defs && (s == d.name || s in d.aliases)
    ensures forall s :: s in TableOf(defs) ==>
              TableOf(defs)[s] in defs && (s == TableOf(defs)[s].name || s in TableOf(defs)[s].aliases)
    decreases |defs|
  {
    if |defs| > 0 {
      var n := |defs| - 1;
      var last := defs[n];
      TableResolves(defs[..n]);
      WithAliasesResolves(TableOf(defs[..n])[last.name := last], last, |last.aliases|);
      assert last.aliases[..|last.aliases|] == last.aliases;
      assert defs == defs[..n] + [last];
      forall s | s in TableOf(defs)
        ensures TableOf(defs)[s] in defs && (s == TableOf(defs)[s].name || s in TableOf(defs)[s].aliases)
      {
        if s != last.name && s !in last.aliases {
          assert TableOf(defs[..n])[s] in defs[..n];
        }
      }
      forall s | exists d :: d in defs && (s == d.name || s in d.aliases)
        ensures s in TableOf(defs)
      {
        var d :| d in defs && (s == d.name || s in d.aliases);
        if d != last {
          assert d in defs[..n];
        }
      }
    }
  }

  /** The loop building the table. */
  method BuildTable(defs: seq<Definition>) returns (table: map<string, Definition>)
    ensures table == TableOf(defs)
  {
    table := map[];
    for k := 0 to |defs|
      invariant table == TableOf(defs[..k])
    {
      var def := defs[k];
      assert defs[..k + 1][..k] == defs[..k];
      table := table[def.name := def];
      ghost var named := table;
      for a := 0 to |def.aliases|
        invariant table == WithAliases(named, def, a)
      {
        table := table[def.aliases[a] := def];
      }
    }
    assert defs[..|defs|] == defs;
  }

  /** Which of the two passes validates instructions. */
  datatype Pass = Current | Legacy

  function Check(pass: Pass, idx: nat, inst: Instruction, def: Definition): Result<Option<Problem>> {
    match pass
    case Current => Validate(idx, inst, def)
    case Legacy => ValidateLegacy(idx, inst, def)
  }

  /** The problems found in and the definitions used by the first `n`
      entries, or the error that stopped the pass. */
  function Scan(pass: Pass, entries: seq<Entry>, table: map<string, Definition>, n: nat): Result<(seq<Problem>, set<Definition>)>
    requires n <= |entries|
  {
    if n == 0 then Ok(([], {}))
    else
      match Scan(pass, entries, table, n - 1)
      case Err(e) => Err(e)
      case Ok(found) =>
        match entries[n - 1]
        case NotInstruction => Ok(found)
        case Instr(inst) =>
          if inst.name !in table then Ok((found.0 + [UnknownInstruction(n - 1, inst.name)], found.1))
          else
            match Check(pass, n - 1, inst, table[inst.name])
            case Err(e) => Err(e)
            case Ok(Some(p)) => Ok((found.0 + [p], found.1))
            case Ok(None) => Ok((found.0, found.1 + {table[inst.name]}))
  }

  /** The outcome of a pass. */
  datatype Verdict = Valid(used: set<Definition>) | Invalid(problems: seq<Problem>) | Crashed(error: string)

  /** `verify_instructions`: an error stops the pass; otherwise the assertion
      fails when any problem was found and the used definitions are
      returned when none was. */
  function Verified(pass: Pass, entries: seq<Entry>, defs: seq<Definition>): Verdict {
    match Scan(pass, entries, TableOf(defs), |entries|)
    case Err(e) => Crashed(e)
    case Ok(found) => if |found.0| > 0 then Invalid(found.0) else Valid(found.1)
  }

  /** The instruction at `i` is known and passes its check. */
  predicate Passes(pass: Pass, entries: seq<Entry>, table: map<string, Definition>, i: nat)
    requires i < |entries| && entries[i].Instr?
  {
    entries[i].inst.name in table && Check(pass, i, entries[i].inst, table[entries[i].inst.name]) == Ok(None)
  }

  /** Unknown names and failed checks are all reported, none is dropped, and
      the used definitions are exactly those of the instructions that pass;
      no problem is found exactly when every instruction passes. */
  lemma {:induction false} ScanFacts(pass: Pass, entries: seq<Entry>, table: map<string, Definition>, n: nat)
    requires n <= |entries| && Scan(pass, entries, table, n).Ok?
    ensures var found := Scan(pass, entries, table, n).value;
            (forall i :: 0 <= i < n && entries[i].Instr? && entries[i].inst.name !in table ==>
               UnknownInstruction(i, entries[i].inst.name) in found.0) &&
            (forall i :: (0 <= i < n && entries[i].Instr? && entries[i].inst.name in table &&
                          Check(pass, i, entries[i].inst, table[entries[i].inst.name]).Ok? &&
                          Check(pass, i, entries[i].inst, table[entries[i].inst.name]).value.Some?) ==>
               Check(pass, i, entries[i].inst, table[entries[i].inst.name]).value.value in found.0) &&
            (forall i :: 0 <= i < n && entries[i].Instr? && Passes(pass, entries, table, i) ==>
               table[entries[i].inst.name] in found.1) &&
            (forall d :: d in found.1 ==>
               exists i :: 0 <= i < n && entries[i].Instr? && Passes(pass, entries, table, i) && table[entries[i].inst.name] == d) &&
            (|found.0| == 0 <==> forall i :: 0 <= i < n && entries[i].Instr? ==> Passes(pass, entries, table, i))
  {
    if n > 0 {
      ScanFacts(pass, entries, table, n - 1);
    }
  }

  /** The pass stops with an error exactly when some known instruction's
      check raises. */
  lemma {:induction false} ScanCrashes(pass: Pass, entries: seq<Entry>, table: map<string, Definition>, n: nat)
    requires n <= |entries|
    ensures Scan(pass, entries, table, n).Err? <==>
              exists i :: 0 <= i < n && entries[i].Instr? && entries[i].inst.name in table &&
                Check(pass, i, entries[i].inst, table[entries[i].inst.name]).Err?
  {
    if n > 0 {
      ScanCrashes(pass, entries, table, n - 1);
    }
  }

  /** One turn of the loop over the circuit. */
  method ScanEntry(pass: Pass, idx: nat, entry: Entry, table: map<string, Definition>, problems: seq<Problem>, used: set<Definition>)
    returns (r: Result<(seq<Problem>, set<Definition>)>)
    ensures entry.NotInstruction? ==> r == Ok((problems, used))
    ensures entry.Instr? && entry.inst.name !in table ==>
              r == Ok((problems + [UnknownInstruction(idx, entry.inst.name)], used))
    ensures entry.Instr? && entry.inst.name in table ==>
              var check := Check(pass, idx, entry.inst, table[entry.inst.name]);
              r == match check
                   case Err(e) => Err(e)
                   case Ok(Some(p)) => Ok((problems + [p], used))
                   case Ok(None) => Ok((problems, used + {table[entry.inst.name]}))
  {
    if entry.NotInstruction? {
      return Ok((problems, used));
    }
    var inst := entry.inst;
    if inst.name !in table {
      return Ok((problems + [UnknownInstruction(idx, inst.name)], used));
    }
    var definition := table[inst.name];
    var error;
    if pass == Current {
      error := Validate(idx, inst, definition);
    } else {
      error := ValidateLegacyInstruction(idx, inst, definition);
    }
    match error {
      case Err(e) => r := Err(e);
      case Ok(Some(p)) => r := Ok((problems + [p], used));
      case Ok(None) => r := Ok((problems, used + {definition}));
    }
  }

  /** `verify_instructions` of either pass. */
  method VerifyInstructions(pass: Pass, entries: seq<Entry>, defs: seq<Definition>) returns (v: Verdict)
    ensures v == Verified(pass, entries, defs)
  {
    var table := BuildTable(defs);
    var problems: seq<Problem> := [];
    var used: set<Definition> := {};
    for i := 0 to |entries|
      invariant Scan(pass, entries, table, i) == Ok((problems, used))
    {
      var r := ScanEntry(pass, i, entries[i], table, problems, used);
      if r.Err? {
        ScanErrorStays(pass, entries, table, i + 1, |entries|);
        return Crashed(r.error);
      }
      problems, used := r.value.0, r.value.1;
    }
    if |problems| > 0 {
      return Invalid(problems);
    }
    return Valid(used);
  }

  lemma {:induction false} ScanErrorStays(pass: Pass, entries: seq<Entry>, table: map<string, Definition>, i: nat, n: nat)
    requires i <= n <= |entries| && Scan(pass, entries, table, i).Err?
    ensures Scan(pass, entries, table, n) == Scan(pass, entries, table, i)
    decreases n
  {
    if n > i {
      ScanErrorStays(pass, entries, table, i, n - 1);
    }
  }

  /** A pass that completes fails exactly when an instruction is unknown or
      does not pass its check, and when it succeeds it returns exactly the
      definitions of the instructions. */
  lemma VerdictMeaning(pass: Pass, entries: seq<Entry>, defs: seq<Definition>)
    ensures var table := TableOf(defs);
            Verified(pass, entries, defs).Valid? <==>
              forall i :: 0 <= i < |entries| && entries[i].Instr? ==> Passes(pass, entries, table, i)
    ensures var table := TableOf(defs);
            Verified(pass, entries, defs).Valid? ==>
              forall d :: d in Verified(pass, entries, defs).used <==>
                exists i :: 0 <= i < |entries| && entries[i].Instr? && entries[i].inst.name in table && table[entries[i].inst.name] == d
    ensures Verified(pass, entries, defs).Invalid? ==> |Verified(pass, entries, defs).problems| > 0
  {
    var table := TableOf(defs);
    ScanCrashes(pass, entries, table, |entries|);
    if Scan(pass, entries, table, |entries|).Ok? {
      ScanFacts(pass, entries, table, |entries|);
    } else {
      var i :| 0 <= i < |entries| && entries[i].Instr? && entries[i].inst.name in table &&
               Check(pass, i, entries[i].inst, table[entries[i].inst.name]).Err?;
      assert !Passes(pass, entries, table, i);
    }
  }
}
