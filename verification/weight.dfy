/**
 * The weight of a sample: a 32-bit latency and, when the kernel reports the
 * extended weight format, two further 16-bit values. There is no tag saying
 * which constructor built a weight: the latency-only constructor leaves both
 * extra values at 0, so a caller cannot tell "not reported" from "reported as 0".
 */
module Weights {
  import opened Ints

  /**
   * The three-value constructor: latency, `var2_w` and `var3_w`. The
   * `latency` field is the `latency()` getter.
   */
  datatype Weight = Weight(latency: u32, var2W: u16, var3W: u16)

  /** The second value, widened to 32 bits; it never exceeds the 16-bit range it is stored in. */
  function Var2(w: Weight): (r: u32)
    ensures r < 0x1_0000
  {
    w.var2W as u32
  }

  /** The third value, widened to 32 bits; it never exceeds the 16-bit range it is stored in. */
  function Var3(w: Weight): (r: u32)
    ensures r < 0x1_0000
  {
    w.var3W as u32
  }

  /** The latency-only constructor: reports `latency`, and 0 for both extra values. */
  function LatencyOnly(latency: u32): (w: Weight)
    ensures w.latency == latency && Var2(w) == 0 && Var3(w) == 0
  {
    Weight(latency, 0, 0)
  }

  /** The accessors return exactly what the three-value constructor was given. */
  lemma WeightAccessors(latency: u32, var2: u16, var3: u16)
    ensures var w := Weight(latency, var2, var3);
      w.latency == latency && Var2(w) == var2 as u32 && Var3(w) == var3 as u32
  {
  }

  /** A latency-only weight is indistinguishable from one whose extra values are 0. */
  lemma LatencyOnlyIsIndistinguishable(latency: u32)
    ensures LatencyOnly(latency) == Weight(latency, 0, 0)
  {
  }
}
