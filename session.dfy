/**
 * The FitAI object: a scan counter checked against a daily limit, and the
 * results pipeline (measurements, then body type, then size, then outfits)
 * that one accepted analysis runs.
 */
module Session {
  import opened Strings
  import opened Synthesizer
  import opened Classifier
  import opened Outfits

  datatype Option<T> = None | Some(value: T)

  /** What one analysis produces and the page shows. */
  datatype Report = Report(measurements: Measurements, bodyType: BodyType, size: Size, outfits: seq<Outfit>)

  /**
   * showResults: the pipeline, stages in the source's order. The body type
   * and the size are those of the measurements, every title names the size,
   * and the flag-dependent texts follow the inferred body type.
   */
  function ShowResults(d: Draws): (r: Report)
    requires ValidDraws(d)
    ensures InRange(r.measurements)
    ensures r.bodyType == InferBodyType(r.measurements)
    ensures r.bodyType == CurvyPear <==> HipWaistDiff(r.measurements) > 14
    ensures r.size == EstimateSize(r.measurements)
    ensures Rank(r.size) == 0 || 3 * Thresholds[Rank(r.size) - 1] <= Girth(r.measurements)
    ensures Rank(r.size) == 4 || Girth(r.measurements) < 3 * Thresholds[Rank(r.size)]
    ensures r.outfits == GenerateMockOutfits(Label(r.bodyType), SizeName(r.size))
    ensures |r.outfits| == 4
  {
    var mockMeasurements := GenerateMockMeasurements(d);
    var mockBodyType := InferBodyType(mockMeasurements);
    var mockSize := EstimateSize(mockMeasurements);
    Report(mockMeasurements, mockBodyType, mockSize,
           GenerateMockOutfits(Label(mockBodyType), SizeName(mockSize)))
  }

  /**
   * In the shown results every title names the shown size, and each
   * flag-dependent text follows the inferred body type.
   */
  lemma ResultsAgree(d: Draws)
    requires ValidDraws(d)
    ensures var r := ShowResults(d);
      && (forall o :: o in r.outfits ==> Includes(o.title, SizeName(r.size)))
      && (r.outfits[0].good == HighWaistTrousers <==> r.bodyType == CurvyPear)
      && (r.outfits[0].avoid == PaddedShoulders <==> r.bodyType == InvertedTriangle)
      && (r.outfits[1].good == SoftFabrics <==> r.bodyType == CurvyPear)
      && (r.outfits[1].avoid == BoxyTops <==> r.bodyType == CurvyPear)
      && (r.outfits[3].good == WrapOrALine <==> r.bodyType == CurvyPear)
  {
    var r := ShowResults(d);
    LabelFlags(r.bodyType);
    SizeInEveryTitle(Label(r.bodyType), SizeName(r.size));
  }

  /** The limit the constructor sets. */
  const DailyLimit := 3

  function Min(a: int, b: int): int { if a <= b then a else b }

  /** The counter after one call of analyze. */
  function ScanStep(count: int, limit: int): int {
    if count >= limit then count else count + 1
  }

  /**
   * One call adds one to the counter exactly when it is below the limit and
   * leaves it unchanged otherwise, so a counter at or below the limit stays there.
   */
  lemma ScanStepGuard(count: int, limit: int)
    ensures ScanStep(count, limit) == count + 1 <==> count < limit
    ensures ScanStep(count, limit) == count <==> count >= limit
    ensures count <= limit ==> ScanStep(count, limit) <= limit
  {
  }

  /** The counter after `n` calls of analyze, one after the other, starting from `count`. */
  function ScanCountAfter(count: int, limit: int, n: nat): int
    decreases n
  {
    if n == 0 then count else ScanCountAfter(ScanStep(count, limit), limit, n - 1)
  }

  /** Below the limit, each call adds one until the limit is reached; there the counter stays. */
  lemma {:induction false} ScanCountSaturates(count: int, limit: int, n: nat)
    requires count <= limit
    ensures ScanCountAfter(count, limit, n) == Min(count + n, limit)
    decreases n
  {
    if n > 0 {
      ScanCountSaturates(ScanStep(count, limit), limit, n - 1);
    }
  }

  /** One more call is one more step on the counter reached so far. */
  lemma {:induction false} ScanCountAfterStep(count: int, limit: int, n: nat)
    ensures ScanCountAfter(count, limit, n + 1) == ScanStep(ScanCountAfter(count, limit, n), limit)
    decreases n
  {
    if n > 0 {
      ScanCountAfterStep(ScanStep(count, limit), limit, n - 1);
    }
  }

  /** From a fresh counter, call number k + 1 is accepted exactly when k is below the limit. */
  lemma AcceptedIffBelowLimit(limit: nat, k: nat)
    ensures ScanCountAfter(0, limit, k) < limit <==> k < limit
    ensures ScanCountAfter(0, limit, k) <= limit
  {
    ScanCountSaturates(0, limit, k);
  }

  class FitAI {
    var scanCount: int
    const dailyLimit: int
    /** The results currently shown; None before the first accepted analysis. */
    var results: Option<Report>
    /** How many times analyze has been called, accepted or not. */
    ghost var calls: nat

    ghost predicate Valid()
      reads this
    {
      && dailyLimit == DailyLimit
      && 0 <= scanCount <= dailyLimit
      && scanCount == ScanCountAfter(0, dailyLimit, calls)
      && (results == None <==> scanCount == 0)
    }

    constructor ()
      ensures Valid()
      ensures scanCount == 0 && dailyLimit == 3 && results == None && calls == 0
    {
      scanCount := 0;
      dailyLimit := 3;
      results := None;
      calls := 0;
    }

    /**
     * analyze, run as one atomic step with the random draws passed in. At the
     * limit it is rejected and nothing changes; otherwise the counter goes up
     * by one and the stored results are replaced by a fresh run of the pipeline.
     * Counting calls from construction, exactly the first `dailyLimit` are accepted.
     */
    method Analyze(d: Draws) returns (accepted: bool)
      requires Valid() && ValidDraws(d)
      modifies this
      ensures Valid()
      ensures calls == old(calls) + 1
      ensures accepted <==> old(scanCount) < dailyLimit
      ensures accepted <==> old(calls) < dailyLimit
      ensures accepted ==> scanCount == old(scanCount) + 1 && results == Some(ShowResults(d))
      ensures !accepted ==> scanCount == old(scanCount) && results == old(results)
    {
      AcceptedIffBelowLimit(dailyLimit, calls);
      ScanCountAfterStep(0, dailyLimit, calls);
      if scanCount >= dailyLimit {
        accepted := false;
      } else {
        accepted := true;
        scanCount := scanCount + 1;
        results := Some(ShowResults(d));
      }
      calls := calls + 1;
    }
  }

  /**
   * A fresh FitAI accepts three analyses and rejects the fourth, which
   * leaves the counter at three.
   */
  method FourthScanRejected(d: Draws) returns (first: bool, second: bool, third: bool, fourth: bool, count: int)
    requires ValidDraws(d)
    ensures first && second && third && !fourth
    ensures count == 3
  {
    var app := new FitAI();
    first := app.Analyze(d);
    second := app.Analyze(d);
    third := app.Analyze(d);
    fourth := app.Analyze(d);
    count := app.scanCount;
  }
}
