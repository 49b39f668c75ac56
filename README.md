# FitAI decision logic in Dafny

FitAI is a browser demo that pretends to measure a body from a photo. When
the user clicks "analyze" it makes up five measurements at random. From those
it infers a body type and a garment size, and it shows a fixed catalog of
four outfit suggestions whose advice depends on the body type. The object
allows three analyses per session and rejects every one after that.

This project models the decision part of the `FitAI` class in `js/app.js`:

- `strings.dfy`, module `Strings`: JavaScript's `String.prototype.includes`. The
  outfit generator tests the body-type label with it.
- `synthesizer.dfy`, module `Synthesizer`: `generateMockMeasurements`. The five
  `Math.floor(Math.random() * n)` draws are passed in as integers in `[0, n)`.
- `classifier.dfy`, module `Classifier`: `inferBodyType` and `estimateSize`.
  The body type and the size are enumerations. `Label` and `SizeName` give the
  exact strings the page shows.
- `outfits.dfy`, module `Outfits`: `generateMockOutfits`. Each card's
  `formality`, `visual` and `detail` strings are fixed for its occasion, so
  they are given by functions of an `Occasion` enumeration. The thirteen
  good/avoid texts are named by an `Advice` enumeration, and `AdviceText`
  returns the source's wording. Titles stay strings built from the size that
  is passed in.
- `session.dfy`, module `Session`: the `FitAI` class. It covers the
  `scanCount`/`dailyLimit` guard of `analyze`, and the order in which
  `showResults` runs the stages (measurements, then body type, then size,
  then outfits). A ghost counter `calls` counts every call of `Analyze`.
  The class invariant ties `scanCount` to the closed form `ScanCountAfter`.

`avg < k` in `estimateSize` becomes `chest + waist + hips < 3 * k`. On the
integer measurements the synthesizer produces, this is the same test.

The thresholds are those in `js/app.js`: 14 for hips minus waist, 4 and 6 for
chest minus hips, and averages of 82, 90, 98 and 106. The code has four catalog
entries and one size. It has no kids' sizes, fit preference, sample profile,
normal-distribution draws or occasion filter, and the model has none of them
either.

## Model

| member | source | states |
|---|---|---|
| Synthesizer.GenerateMockMeasurements | js/app.js:157-166 | with every draw in `[0, n)`, each measurement lies in its range, bounds included: height 165–184, chest 86–103, waist 70–87, hips 90–105, inseam 74–83 |
| Synthesizer.DrawsFor | js/app.js:159-165 | every profile inside those ranges comes from valid draws, so the ranges are exactly the reachable set |
| Synthesizer.DrawsRecovered | js/app.js:159-165 | the draws can be read back from the profile, so different draws give different profiles |
| Synthesizer.CommentedUpperEndsUnreachable | js/app.js:159-163 | the upper ends written in the comments beside the draws (185, 104, 88, 106, 84) are never produced |
| Strings.Includes | js/app.js:190-191 | the substring test the outfit generator applies: the empty needle is in every string, and an included needle is never longer than the string |
| Strings.IncludesMiddle | js/app.js:190-191 | a string includes every piece it is built from, wherever that piece sits |
| Strings.IncludesNeedsChar | js/app.js:190-191 | every character of an included needle is a character of the string |
| Strings.MissingCharNotIncluded | js/app.js:190-191 | a needle with a character the string lacks is not included in it |
| Classifier.Abs | js/app.js:173 | `Math.abs` on integers: the result is x or −x and at least both of them |
| Classifier.InferBodyType | js/app.js:168-176 | first match wins. Curvy / Pear exactly when hips − waist > 14, whatever the chest. Otherwise Balanced / Rectangle exactly when −4 ≤ chest − hips ≤ 4, Inverted Triangle exactly when chest − hips > 6, and Classic / Regular exactly when chest − hips < −4 or is 5 or 6 |
| Classifier.IsCurvy | js/app.js:190 | the curvy test: the label includes "Curvy" or "Pear"; it only holds for a text of at least four characters with a 'y' or a 'P' |
| Classifier.IsInverted | js/app.js:191 | the inverted test: the label includes "Inverted"; it only holds for a text of at least eight characters with an 'I' |
| Classifier.NoFlags | js/app.js:190-191 | a text with none of 'y', 'P' and 'I' passes neither test |
| Classifier.CurvyPearFlags | js/app.js:190-191 | "Curvy / Pear" includes "Curvy" and does not include "Inverted" |
| Classifier.InvertedTriangleFlags | js/app.js:190-191 | "Inverted Triangle" includes "Inverted" but neither "Curvy" nor "Pear" |
| Classifier.UnflaggedLabels | js/app.js:190-191 | neither "Balanced / Rectangle" nor "Classic / Regular" includes "Curvy", "Pear" or "Inverted" |
| Classifier.LabelFlags | js/app.js:190-191 | on the four labels inferBodyType returns, the curvy test holds only for Curvy / Pear and the inverted test only for Inverted Triangle |
| Classifier.EstimateSize | js/app.js:178-186 | the size is the band of the average: it is at least the band's lower threshold (none for XS) and strictly below its upper one (none for XL) |
| Classifier.SizeBandBoundaries | js/app.js:181-185 | a boundary average belongs to the band above it: just under 82 is XS, 82 is S, 90 is M, 98 is L, 106 is XL |
| Classifier.EstimateSizeMonotone | js/app.js:180-185 | a larger chest + waist + hips never gives a smaller size |
| Outfits.Title | js/app.js:198-233 | a title is three characters longer than its prefix and the size together |
| Outfits.TitleParts | js/app.js:198-233 | a title is the occasion's prefix, then " (", then the size, then ")" |
| Outfits.GenerateMockOutfits | js/app.js:188-241 | exactly four entries: Work, Evening, Weekend, Special Event, in that order. Entry i's title is `Title` of its occasion and the size passed in. The Work good text, both Evening texts and the Special Event good text take their curvy variant exactly when the curvy test holds, and their other variant otherwise. The Work avoid text takes its inverted variant exactly when the inverted test holds. The Weekend texts and the Special Event avoid text are fixed |
| Outfits.SizeInEveryTitle | js/app.js:198-233 | the size passed in occurs in all four titles |
| Outfits.TitleDeterminesSize | js/app.js:198-233 | a title is its prefix, " (", the size and ")", so equal titles mean equal sizes |
| Outfits.TextsIndependentOfSize | js/app.js:193-240 | the size changes nothing in the catalog except the titles |
| Outfits.CurvyTextsDependOnlyOnCurvy | js/app.js:200-237 | two body types with the same curvy flag get the same Work good, Evening good and avoid, and Special Event good texts |
| Outfits.WorkAvoidDependsOnlyOnInverted | js/app.js:203-205 | two body types with the same inverted flag get the same Work avoid text |
| Session.ShowResults | js/app.js:106-108 | one run of the pipeline: measurements in range; the body type is inferBodyType of those measurements, so Curvy / Pear exactly when hips − waist > 14; the size is estimateSize of them and lies in its band, at or above its lower threshold and below its upper one; the outfits are generateMockOutfits of the body type's label and the size's name, four of them |
| Session.ResultsAgree | js/app.js:106-135 | in the shown results every title names the shown size; the Work good text, both Evening texts and the Special Event good text take their curvy variant exactly when the body type is Curvy / Pear, and the Work avoid text its inverted variant exactly when it is Inverted Triangle |
| Session.ScanStepGuard | js/app.js:77-93 | one call adds one to the counter exactly when it is below the limit and leaves it unchanged otherwise, so a counter at or below the limit stays at or below it |
| Session.ScanCountAfterStep | js/app.js:77-93 | one more call of analyze applies one more guarded step to the counter |
| Session.ScanCountSaturates | js/app.js:77-93 | from a count at or below the limit, n calls leave the counter at min(count + n, limit) |
| Session.AcceptedIffBelowLimit | js/app.js:3-4 | from a fresh counter, the (k + 1)-th call finds the counter below the limit exactly when k < limit, and the counter never exceeds the limit |
| Session.FitAI.constructor | js/app.js:2-6 | a new FitAI has scanCount 0, dailyLimit 3 and no results |
| Session.FitAI.Analyze | js/app.js:76-95 | accepted exactly when scanCount < dailyLimit, which is exactly when fewer than dailyLimit calls came before. When accepted, scanCount goes up by one and the stored results become a new pipeline run. When rejected, scanCount and the results are unchanged. The class invariant `0 ≤ scanCount ≤ dailyLimit` is kept |
| Session.FourthScanRejected | js/app.js:76-95 | a new FitAI accepts three analyses, rejects the fourth, and is left with scanCount 3 |

## Left out

- DOM and event wiring in `init`, `showPreview` and `resetUpload`: this is browser I/O with no decisions to model.
- HTML templating and card rendering in `showResults`: this is presentation. Only the order of the pipeline's calls and what they produce are kept (`Session.Report`).
- The 2.5-second `setTimeout` delay and the `alert` in `analyze`: these are timing and user-interface effects. `Analyze` is one atomic, sequential step. Two overlapping calls could both pass the guard before either increments the counter, and this model does not capture that.
- `Math.random`: a nondeterministic foreign call. It is replaced by the five draws passed in as parameters.
- Floating-point division in `estimateSize`: replaced by the exact integer comparison `chest + waist + hips < 3 * k`. It agrees with the source on integer inputs.
- The `formality`, `visual` and `detail` fields of an outfit card are not stored in `Outfits.Outfit`. They are the functions `Formality`, `Visual` and `Detail` of the card's occasion, which hold the same strings.
- `showResults` clears the measurement and outfit grids, but it also appends a new "Detected body type" note after the measurement grid on every accepted run, so earlier notes stay on the page. `Session.FitAI.results` holds only the latest `Report`; the notes that pile up are presentation and are not modelled.
- `Outfits.GenerateMockOutfits` names each good/avoid text by an `Advice` value rather than storing the string. `AdviceText` gives the wording, so equal advice values mean equal texts.
