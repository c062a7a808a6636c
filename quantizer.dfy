/** The amplitude quantizer: the level-dependent grid that target amplitudes
    and slider positions live on, and `randomArray`, which floors raw random
    draws onto that grid. */
module Quantizer {

  const MaxAmplitude := 100

  /** An amplitude in [0, 100]. This is both what one raw draw
      `Math.floor(Math.random() * 101)` can produce and what a range slider
      with min 0 and max 100 can report. */
  type Amplitude = v: int | 0 <= v <= MaxAmplitude

  /** The grid step of a level: 10 for Normal (1), 5 for Hard (2) and 1 for
      every other level. The quantizer's multiplier and the sliders' `step`
      attribute are both this mapping. Every step divides the maximum, so the
      slider's top position 100 is a grid point on every level. */
  function Step(level: int): (step: int)
    ensures step > 0 && MaxAmplitude % step == 0
    ensures step == 10 <==> level == 1
    ensures step == 5 <==> level == 2
    ensures step == 1 <==> level != 1 && level != 2
  {
    if level == 1 then 10 else if level == 2 then 5 else 1
  }

  predicate OnGrid(v: int, level: int) {
    v % Step(level) == 0
  }

  /** One quantized draw: `Math.floor(raw / multiplier) * multiplier`. For a
      positive divisor Dafny's `/` is the floor division the source uses. The
      result is the grid point at or just below the draw. */
  function Quantize(raw: Amplitude, level: int): (q: Amplitude)
    ensures OnGrid(q, level)
    ensures q <= raw < q + Step(level)
  {
    var m := Step(level);
    assert raw == (raw / m) * m + raw % m;
    (raw / m) * m
  }

  /** The quantizer floors: no grid point at or below the draw lies above its
      result, so the result is the greatest such grid point. */
  lemma QuantizeIsFloor(raw: Amplitude, level: int, g: int)
    requires OnGrid(g, level) && g <= raw
    ensures g <= Quantize(raw, level)
  {}

  /** A value already on the grid, such as a slider position, is left as it
      is by the quantizer. */
  lemma QuantizeFixesGridPoints(v: Amplitude, level: int)
    requires OnGrid(v, level)
    ensures Quantize(v, level) == v
  {}

  /** `randomArray(length, level)` with the `length` raw draws passed in:
      one quantized value per draw, in order. */
  function RandomArray(draws: seq<Amplitude>, level: int): (values: seq<Amplitude>)
    ensures |values| == |draws|
    ensures forall i :: 0 <= i < |draws| ==>
              OnGrid(values[i], level) && values[i] <= draws[i] < values[i] + Step(level)
  {
    seq(|draws|, i requires 0 <= i < |draws| => Quantize(draws[i], level))
  }
}
