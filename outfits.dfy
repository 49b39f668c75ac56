/**
 * The recommendation generator of FitAI (generateMockOutfits): a fixed
 * catalog of four outfits whose advice texts are chosen by two flags of the
 * body type and whose titles carry the size.
 *
 * The fixed texts are named by two enumerations, `Occasion` (one per catalog
 * entry) and `Advice` (one per good/avoid text); `OccasionName`,
 * `Formality`, `Visual`, `Detail`, `TitlePrefix` and `AdviceText` give the
 * exact strings the application shows.
 */
module Outfits {
  import opened Strings
  import opened Classifier

  datatype Occasion = Work | Evening | Weekend | SpecialEvent

  function OccasionName(o: Occasion): string {
    match o
    case Work => "Work"
    case Evening => "Evening"
    case Weekend => "Weekend"
    case SpecialEvent => "Special Event"
  }

  function Formality(o: Occasion): string {
    match o
    case Work => "Formal"
    case Evening => "Smart Casual"
    case Weekend => "Casual"
    case SpecialEvent => "Dressy"
  }

  function Visual(o: Occasion): string {
    match o
    case Work => "Tailored blazer + trousers"
    case Evening => "Dark denim + lightweight shirt"
    case Weekend => "Relaxed tee + joggers"
    case SpecialEvent => "Midi dress / tailored set"
  }

  function Detail(o: Occasion): string {
    match o
    case Work => "Structured blazer, fitted trousers, clean shirt for a sharp everyday office look."
    case Evening => "Dark jeans, relaxed shirt or blouse, and smart sneakers/loafers."
    case Weekend => "Soft T-shirt, joggers or relaxed jeans, and easy sneakers."
    case SpecialEvent => "Midi dress or tailored co-ord with clean lines and minimal clutter."
  }

  function TitlePrefix(o: Occasion): string {
    match o
    case Work => "Office Ready"
    case Evening => "Dinner & Dates"
    case Weekend => "Weekend Comfort"
    case SpecialEvent => "Events & Functions"
  }

  /** The good and avoid texts of the catalog. */
  datatype Advice =
    | HighWaistTrousers | StraightLegTrousers          // Work, good
    | PaddedShoulders | BaggySuits                     // Work, avoid
    | SoftFabrics | FittedTop                          // Evening, good
    | BoxyTops | LowRiseBottoms                        // Evening, avoid
    | MediumWeightFabrics                              // Weekend, good
    | TightTops                                        // Weekend, avoid
    | WrapOrALine | ColumnSilhouettes                  // Special Event, good
    | ShinyClingyFabrics                               // Special Event, avoid

  function AdviceText(a: Advice): string {
    match a
    case HighWaistTrousers => "High-waist trousers and slightly nipped-in blazer to highlight the waist."
    case StraightLegTrousers => "Straight-leg trousers and regular-fit blazer for clean lines."
    case PaddedShoulders => "Very padded shoulders that exaggerate upper body width."
    case BaggySuits => "Overly baggy suits that hide your natural shape."
    case SoftFabrics => "Soft fabrics that skim the body and v-necklines to elongate the torso."
    case FittedTop => "Fitted top with straight or slim bottoms for a balanced silhouette."
    case BoxyTops => "Boxy tops that cut across the widest part of the hips."
    case LowRiseBottoms => "Very low-rise bottoms that shorten the legs."
    case MediumWeightFabrics => "Medium-weight fabrics and mid-rise bottoms for all-day comfort and balance."
    case TightTops => "Overly tight tops with ultra-skinny bottoms that restrict movement."
    case WrapOrALine => "Wrap or A-line shapes that follow your curves without clinging."
    case ColumnSilhouettes => "Column silhouettes and subtle structure to look sleek and modern."
    case ShinyClingyFabrics => "Very shiny clingy fabrics that highlight areas you may not want to emphasize."
  }

  /**
   * One outfit card. The source's `formality`, `visual` and `detail` fields
   * are fixed per occasion and are given by the functions of those names.
   */
  datatype Outfit = Outfit(occasion: Occasion, title: string, good: Advice, avoid: Advice)

  /** The title of a catalog entry: its fixed prefix and the size in parentheses. */
  function Title(o: Occasion, size: string): (t: string)
    ensures |t| == |TitlePrefix(o)| + |size| + 3
  {
    TitlePrefix(o) + " (" + size + ")"
  }

  /**
   * generateMockOutfits: always the same four entries in the same order;
   * each conditional text shows which of the two flags of the body type is
   * set, and the other texts are the same whatever the inputs.
   */
  function GenerateMockOutfits(bodyType: string, size: string): (r: seq<Outfit>)
    ensures |r| == 4
    ensures r[0].occasion == Work && r[1].occasion == Evening
    ensures r[2].occasion == Weekend && r[3].occasion == SpecialEvent
    ensures r[0].good == HighWaistTrousers <==> IsCurvy(bodyType)
    ensures r[0].good in {HighWaistTrousers, StraightLegTrousers}
    ensures r[0].avoid == PaddedShoulders <==> IsInverted(bodyType)
    ensures r[0].avoid in {PaddedShoulders, BaggySuits}
    ensures r[1].good == SoftFabrics <==> IsCurvy(bodyType)
    ensures r[1].good in {SoftFabrics, FittedTop}
    ensures r[1].avoid == BoxyTops <==> IsCurvy(bodyType)
    ensures r[1].avoid in {BoxyTops, LowRiseBottoms}
    ensures r[2].good == MediumWeightFabrics && r[2].avoid == TightTops
    ensures r[3].good == WrapOrALine <==> IsCurvy(bodyType)
    ensures r[3].good in {WrapOrALine, ColumnSilhouettes}
    ensures r[3].avoid == ShinyClingyFabrics
    ensures r[0].title == Title(Work, size) && r[1].title == Title(Evening, size)
    ensures r[2].title == Title(Weekend, size) && r[3].title == Title(SpecialEvent, size)
  {
    var baseFit := size;
    var isCurvy := IsCurvy(bodyType);
    var isInverted := IsInverted(bodyType);
    [
      Outfit(Work, Title(Work, baseFit),
             if isCurvy then HighWaistTrousers else StraightLegTrousers,
             if isInverted then PaddedShoulders else BaggySuits),
      Outfit(Evening, Title(Evening, baseFit),
             if isCurvy then SoftFabrics else FittedTop,
             if isCurvy then BoxyTops else LowRiseBottoms),
      Outfit(Weekend, Title(Weekend, baseFit),
             MediumWeightFabrics,
             TightTops),
      Outfit(SpecialEvent, Title(SpecialEvent, baseFit),
             if isCurvy then WrapOrALine else ColumnSilhouettes,
             ShinyClingyFabrics)
    ]
  }

  /** The size passed in appears in every title. */
  lemma SizeInEveryTitle(bodyType: string, size: string)
    ensures forall o :: o in GenerateMockOutfits(bodyType, size) ==> Includes(o.title, size)
  {
    IncludesMiddle(TitlePrefix(Work) + " (", size, ")");
    IncludesMiddle(TitlePrefix(Evening) + " (", size, ")");
    IncludesMiddle(TitlePrefix(Weekend) + " (", size, ")");
    IncludesMiddle(TitlePrefix(SpecialEvent) + " (", size, ")");
  }

  /** A title is its prefix, then " (", then the size, then ")". */
  lemma TitleParts(o: Occasion, size: string)
    ensures var t, n := Title(o, size), |TitlePrefix(o)|;
      && t[..n] == TitlePrefix(o)
      && t[n..n + 2] == " ("
      && t[n + 2..|t| - 1] == size
      && t[|t| - 1] == ')'
  {
  }

  /** A title gives back the size it was made with. */
  lemma TitleDeterminesSize(o: Occasion, size1: string, size2: string)
    requires Title(o, size1) == Title(o, size2)
    ensures size1 == size2
  {
    var t1, t2 := Title(o, size1), Title(o, size2);
    var n := |TitlePrefix(o)| + 2;
    assert t1[n..n + |size1|] == size1;
    assert t2[n..n + |size2|] == size2;
  }

  /** Two entries that agree in everything but their titles. */
  predicate SameExceptTitle(o1: Outfit, o2: Outfit) {
    o1.(title := o2.title) == o2
  }

  /** The size changes nothing in the catalog but the titles. */
  lemma TextsIndependentOfSize(bodyType: string, size1: string, size2: string)
    ensures var r1, r2 := GenerateMockOutfits(bodyType, size1), GenerateMockOutfits(bodyType, size2);
      forall i :: 0 <= i < 4 ==> SameExceptTitle(r1[i], r2[i])
  {
    var r1, r2 := GenerateMockOutfits(bodyType, size1), GenerateMockOutfits(bodyType, size2);
    assert SameExceptTitle(r1[0], r2[0]);
    assert SameExceptTitle(r1[1], r2[1]);
    assert SameExceptTitle(r1[2], r2[2]);
    assert SameExceptTitle(r1[3], r2[3]);
  }

  /**
   * The Work good text, both Evening texts and the Special Event good text
   * depend on the body type only through the curvy flag.
   */
  lemma CurvyTextsDependOnlyOnCurvy(b1: string, b2: string, size: string)
    requires IsCurvy(b1) == IsCurvy(b2)
    ensures var r1, r2 := GenerateMockOutfits(b1, size), GenerateMockOutfits(b2, size);
      r1[0].good == r2[0].good && r1[1].good == r2[1].good &&
      r1[1].avoid == r2[1].avoid && r1[3].good == r2[3].good
  {
  }

  /** The Work avoid text depends on the body type only through the inverted flag. */
  lemma WorkAvoidDependsOnlyOnInverted(b1: string, b2: string, size: string)
    requires IsInverted(b1) == IsInverted(b2)
    ensures GenerateMockOutfits(b1, size)[0].avoid == GenerateMockOutfits(b2, size)[0].avoid
  {
  }
}
