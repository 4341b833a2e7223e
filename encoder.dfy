/** Encoding a gadget one level down: every step of its prepare, compute
    and measure lists is replaced by a gadget, nested gadgets being encoded
    recursively and plain instructions by the layer's own encoding. */
module Encoder {
  /** A step of a gadget: a nested gadget or a plain instruction. */
  datatype Step<I, D> = Sub(gadget: Gadget<I, D>) | Plain(instruction: I)

  /** A step list, or `None`. */
  datatype Steps<I, D> = Missing | Listed(steps: seq<Step<I, D>>)

  /** A gadget as `encode` reads it: a name, a level, three optional step
      lists and a decoder `D` that is carried along. */
  datatype Gadget<I, D> = Gadget(
    name: string,
    level: int,
    prepare: Steps<I, D>,
    compute: Steps<I, D>,
    measure: Steps<I, D>,
    decode: D)

  /** The three step lists of a gadget. */
  datatype Part = Prepare | Compute | Measure

  function StepsOf<I, D>(g: Gadget<I, D>, part: Part): Steps<I, D> {
    match part
    case Prepare => g.prepare
    case Compute => g.compute
    case Measure => g.measure
  }

  /** `encode_instruction` on step `i` of a list of `g`: a nested gadget is
      encoded, an instruction goes to `layerEncode`. */
  function EncodeStep<I, D>(g: Gadget<I, D>, part: Part, i: nat, layerEncode: I -> Gadget<I, D>): (r: Step<I, D>)
    requires StepsOf(g, part).Listed? && i < |StepsOf(g, part).steps|
    ensures r.Sub?
    decreases g, 0
  {
    match StepsOf(g, part).steps[i]
    case Sub(h) => Sub(Encode(h, layerEncode))
    case Plain(inst) => Sub(layerEncode(inst))
  }

  /** One list of `encode`: `None` for a missing or empty list, otherwise
      each step encoded in place. */
  function EncodeList<I, D>(g: Gadget<I, D>, part: Part, layerEncode: I -> Gadget<I, D>): Steps<I, D>
    decreases g, 1
  {
    var l := StepsOf(g, part);
    if l.Missing? || |l.steps| == 0 then Missing
    else Listed(seq(|l.steps|, i requires 0 <= i < |l.steps| => EncodeStep(g, part, i, layerEncode)))
  }

  /** `encode`: one level up, the same name and decoder, each list
      encoded. */
  function Encode<I, D>(g: Gadget<I, D>, layerEncode: I -> Gadget<I, D>): Gadget<I, D>
    decreases g, 2
  {
    Gadget(g.name, g.level + 1,
           EncodeList(g, Prepare, layerEncode),
           EncodeList(g, Compute, layerEncode),
           EncodeList(g, Measure, layerEncode),
           g.decode)
  }

  /** An encoded list is absent exactly when the list was absent or empty;
      otherwise it has the same length, every step is now a gadget, a nested
      gadget sits at its own index one level up with its name kept, and an
      instruction is replaced by its layer encoding. */
  lemma EncodeListShape<I, D>(g: Gadget<I, D>, part: Part, layerEncode: I -> Gadget<I, D>)
    ensures EncodeList(g, part, layerEncode).Missing? <==> StepsOf(g, part).Missing? || StepsOf(g, part).steps == []
    ensures EncodeList(g, part, layerEncode).Listed? ==>
              var l := StepsOf(g, part).steps;
              var r := EncodeList(g, part, layerEncode).steps;
              |r| == |l| &&
              (forall i :: 0 <= i < |r| ==> r[i].Sub?) &&
              (forall i :: 0 <= i < |r| && l[i].Sub? ==>
                 r[i].gadget == Encode(l[i].gadget, layerEncode) &&
                 r[i].gadget.level == l[i].gadget.level + 1 &&
                 r[i].gadget.name == l[i].gadget.name) &&
              (forall i :: 0 <= i < |r| && l[i].Plain? ==> r[i].gadget == layerEncode(l[i].instruction))
  {
  }

  /** The number of steps in the three lists (a missing list has none). */
  function StepCount<I, D>(g: Gadget<I, D>): nat {
    (if g.prepare.Listed? then |g.prepare.steps| else 0) +
    (if g.compute.Listed? then |g.compute.steps| else 0) +
    (if g.measure.Listed? then |g.measure.steps| else 0)
  }

  /** Encoding keeps the name and the decoder, raises the level by one and
      keeps the number of steps; encoding twice raises it by two. */
  lemma EncodeKeepsShape<I, D>(g: Gadget<I, D>, layerEncode: I -> Gadget<I, D>)
    ensures Encode(g, layerEncode).name == g.name && Encode(g, layerEncode).decode == g.decode
    ensures Encode(g, layerEncode).level == g.level + 1
    ensures Encode(Encode(g, layerEncode), layerEncode).level == g.level + 2
    ensures StepCount(Encode(g, layerEncode)) == StepCount(g)
  {
    EncodeListShape(g, Prepare, layerEncode);
    EncodeListShape(g, Compute, layerEncode);
    EncodeListShape(g, Measure, layerEncode);
  }
}
