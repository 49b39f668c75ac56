/**
 * The classifier of FitAI: inferBodyType and estimateSize, both pure
 * functions of a synthetic profile.
 */
module Classifier {
  import opened Synthesizer
  import opened Strings

  /** The four body types; `Label` gives the text the application shows. */
  datatype BodyType = CurvyPear | BalancedRectangle | InvertedTriangle | ClassicRegular

  function Label(b: BodyType): string {
    match b
    case CurvyPear => "Curvy / Pear"
    case BalancedRectangle => "Balanced / Rectangle"
    case InvertedTriangle => "Inverted Triangle"
    case ClassicRegular => "Classic / Regular"
  }

  /** Math.abs on integers: the larger of x and -x. */
  function Abs(x: int): (r: nat)
    ensures r == x || r == -x
    ensures r >= x && r >= -x
  {
    if x < 0 then -x else x
  }

  function HipWaistDiff(m: Measurements): int { m.hips - m.waist }
  function ChestHipDiff(m: Measurements): int { m.chest - m.hips }

  /**
   * inferBodyType: a first-match rule chain. The contract gives, for each
   * label, exactly the profiles that receive it.
   */
  function InferBodyType(m: Measurements): (r: BodyType)
    ensures r == CurvyPear <==> HipWaistDiff(m) > 14
    ensures r == BalancedRectangle <==> HipWaistDiff(m) <= 14 && -4 <= ChestHipDiff(m) <= 4
    ensures r == InvertedTriangle <==> HipWaistDiff(m) <= 14 && ChestHipDiff(m) > 6
    ensures r == ClassicRegular <==>
      HipWaistDiff(m) <= 14 && (ChestHipDiff(m) < -4 || ChestHipDiff(m) == 5 || ChestHipDiff(m) == 6)
  {
    if HipWaistDiff(m) > 14 then CurvyPear
    else if Abs(ChestHipDiff(m)) <= 4 then BalancedRectangle
    else if ChestHipDiff(m) > 6 then InvertedTriangle
    else ClassicRegular
  }

  /**
   * The curvy flag of generateMockOutfits. It can hold only for a text of at
   * least four characters that holds a 'y' or a 'P'.
   */
  predicate IsCurvy(bodyType: string)
    ensures IsCurvy(bodyType) ==> |bodyType| >= 4 && ('y' in bodyType || 'P' in bodyType)
  {
    IncludesNeedsChar(bodyType, "Curvy", 4);
    IncludesNeedsChar(bodyType, "Pear", 0);
    Includes(bodyType, "Curvy") || Includes(bodyType, "Pear")
  }

  /**
   * The inverted flag of generateMockOutfits. It can hold only for a text of
   * at least eight characters that holds an 'I'.
   */
  predicate IsInverted(bodyType: string)
    ensures IsInverted(bodyType) ==> |bodyType| >= 8 && 'I' in bodyType
  {
    IncludesNeedsChar(bodyType, "Inverted", 0);
    Includes(bodyType, "Inverted")
  }

  /** "Curvy / Pear" is curvy and not inverted. */
  lemma CurvyPearFlags()
    ensures IsCurvy("Curvy / Pear") && !IsInverted("Curvy / Pear")
  {
    assert OccursAt("Curvy / Pear", "Curvy", 0);
    MissingCharNotIncluded("Curvy / Pear", "Inverted", 0);
  }

  /** "Inverted Triangle" is inverted and not curvy. */
  lemma InvertedTriangleFlags()
    ensures !IsCurvy("Inverted Triangle") && IsInverted("Inverted Triangle")
  {
    MissingCharNotIncluded("Inverted Triangle", "Curvy", 4);
    MissingCharNotIncluded("Inverted Triangle", "Pear", 0);
    assert OccursAt("Inverted Triangle", "Inverted", 0);
  }

  /** A text with none of the characters 'y', 'P' and 'I' raises neither flag. */
  lemma NoFlags(text: string)
    requires 'y' !in text && 'P' !in text && 'I' !in text
    ensures !IsCurvy(text) && !IsInverted(text)
  {
    MissingCharNotIncluded(text, "Curvy", 4);
    MissingCharNotIncluded(text, "Pear", 0);
    MissingCharNotIncluded(text, "Inverted", 0);
  }

  /** The labels Balanced / Rectangle and Classic / Regular raise neither flag. */
  lemma UnflaggedLabels(b: BodyType)
    requires b == BalancedRectangle || b == ClassicRegular
    ensures !IsCurvy(Label(b)) && !IsInverted(Label(b))
  {
    if b == BalancedRectangle {
      NoFlags("Balanced / Rectangle");
    } else {
      NoFlags("Classic / Regular");
    }
  }

  /**
   * On the labels inferBodyType produces, the substring tests of
   * generateMockOutfits pick out exactly one body type each.
   */
  lemma LabelFlags(b: BodyType)
    ensures IsCurvy(Label(b)) <==> b == CurvyPear
    ensures IsInverted(Label(b)) <==> b == InvertedTriangle
  {
    match b
    case CurvyPear => CurvyPearFlags();
    case BalancedRectangle => UnflaggedLabels(b);
    case InvertedTriangle => InvertedTriangleFlags();
    case ClassicRegular => UnflaggedLabels(b);
  }

  /** The five sizes, smallest first; `SizeName` gives the text the application shows. */
  datatype Size = XS | S | M | L | XL

  function SizeName(s: Size): string {
    match s
    case XS => "XS"
    case S => "S"
    case M => "M"
    case L => "L"
    case XL => "XL"
  }

  function Rank(s: Size): (r: nat)
    ensures r < 5
  {
    match s
    case XS => 0
    case S => 1
    case M => 2
    case L => 3
    case XL => 4
  }

  /** Upper ends of the average for XS, S, M and L; XL has none. */
  const Thresholds: seq<int> := [82, 90, 98, 106]

  /** chest + waist + hips, three times the average the source compares. */
  function Girth(m: Measurements): int { m.chest + m.waist + m.hips }

  /**
   * estimateSize: the band of the average of chest, waist and hips.
   * `avg < k` is `Girth(m) < 3 * k`, exact on integers. Each band is half-open
   * at its top, so a boundary value belongs to the next band up.
   */
  function EstimateSize(m: Measurements): (r: Size)
    ensures Rank(r) == 0 || 3 * Thresholds[Rank(r) - 1] <= Girth(m)
    ensures Rank(r) == 4 || Girth(m) < 3 * Thresholds[Rank(r)]
  {
    if Girth(m) < 3 * 82 then XS
    else if Girth(m) < 3 * 90 then S
    else if Girth(m) < 3 * 98 then M
    else if Girth(m) < 3 * 106 then L
    else XL
  }

  /**
   * A boundary value belongs to the band above it: an average just under 82
   * is XS, exactly 82 is S, and likewise at 90, 98 and 106.
   */
  lemma SizeBandBoundaries(m: Measurements)
    ensures Girth(m) == 3 * 82 - 1 ==> EstimateSize(m) == XS
    ensures Girth(m) == 3 * 82 ==> EstimateSize(m) == S
    ensures Girth(m) == 3 * 90 ==> EstimateSize(m) == M
    ensures Girth(m) == 3 * 98 ==> EstimateSize(m) == L
    ensures Girth(m) == 3 * 106 - 1 ==> EstimateSize(m) == L
    ensures Girth(m) == 3 * 106 ==> EstimateSize(m) == XL
  {
  }

  /** A larger girth never gives a smaller size. */
  lemma EstimateSizeMonotone(m1: Measurements, m2: Measurements)
    requires Girth(m1) <= Girth(m2)
    ensures Rank(EstimateSize(m1)) <= Rank(EstimateSize(m2))
  {
  }
}
