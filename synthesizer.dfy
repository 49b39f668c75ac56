/**
 * The measurement synthesizer of FitAI (generateMockMeasurements). The five
 * calls `Math.floor(Math.random() * n)` are given to it as a `Draws` record,
 * each draw an integer in [0, n); what is left is a pure function.
 */
module Synthesizer {

  /** One synthetic body profile, in whole centimetres. */
  datatype Measurements = Measurements(height: int, chest: int, waist: int, hips: int, inseam: int)

  /** The five random draws, one per measurement, in the order they are drawn. */
  datatype Draws = Draws(height: int, chest: int, waist: int, hips: int, inseam: int)

  // Base value and multiplier of each draw.
  const HeightBase := 165
  const HeightSpread := 20
  const ChestBase := 86
  const ChestSpread := 18
  const WaistBase := 70
  const WaistSpread := 18
  const HipsBase := 90
  const HipsSpread := 16
  const InseamBase := 74
  const InseamSpread := 10

  /** Each draw is what `Math.floor(Math.random() * n)` can give: an integer in [0, n). */
  predicate ValidDraws(d: Draws) {
    && 0 <= d.height < HeightSpread
    && 0 <= d.chest < ChestSpread
    && 0 <= d.waist < WaistSpread
    && 0 <= d.hips < HipsSpread
    && 0 <= d.inseam < InseamSpread
  }

  /** The ranges, bounds included, that the synthesizer covers. */
  predicate InRange(m: Measurements) {
    && 165 <= m.height <= 184
    && 86 <= m.chest <= 103
    && 70 <= m.waist <= 87
    && 90 <= m.hips <= 105
    && 74 <= m.inseam <= 83
  }

  /** generateMockMeasurements: every profile it yields lies in the fixed ranges. */
  function GenerateMockMeasurements(d: Draws): (m: Measurements)
    requires ValidDraws(d)
    ensures InRange(m)
  {
    Measurements(HeightBase + d.height, ChestBase + d.chest, WaistBase + d.waist,
                 HipsBase + d.hips, InseamBase + d.inseam)
  }

  /** Every profile in the ranges is produced by exactly these draws, so the ranges are tight. */
  function DrawsFor(m: Measurements): (d: Draws)
    requires InRange(m)
    ensures ValidDraws(d) && GenerateMockMeasurements(d) == m
  {
    Draws(m.height - HeightBase, m.chest - ChestBase, m.waist - WaistBase,
          m.hips - HipsBase, m.inseam - InseamBase)
  }

  /** Distinct draws give distinct profiles: the synthesizer loses no randomness. */
  lemma DrawsRecovered(d: Draws)
    requires ValidDraws(d)
    ensures DrawsFor(GenerateMockMeasurements(d)) == d
  {
  }

  /**
   * The upper ends written beside the draws (185, 104, 88, 106, 84) are never
   * produced: the multiplier is excluded from the draw.
   */
  lemma CommentedUpperEndsUnreachable(d: Draws)
    requires ValidDraws(d)
    ensures var m := GenerateMockMeasurements(d);
      m.height != 185 && m.chest != 104 && m.waist != 88 && m.hips != 106 && m.inseam != 84
  {
  }
}
