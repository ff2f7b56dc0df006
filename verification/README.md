# Compatibility predictor: scoring core

This project models the scoring pipeline of the team–applicant
compatibility predictor. It takes a team and a list of applicants. Each
person has four traits: intelligence, strength, endurance and spicy-food
tolerance. The pipeline:

- divides every raw trait by 10;
- takes the team's centroid, the field-wise mean;
- scores each applicant on how close they are to the centroid (the
  *average fit*, one minus the Euclidean distance over √4);
- scores each applicant on how well they fill the team's shortfall from
  the perfect profile (1, 1, 1, 1) (the *gap-filler score*, the applicant's
  gap-weighted contribution divided by the total gap);
- blends the two scores 80/20.

Modules, in pipeline order:

- `AttributeVector` (attributes.dfy): the attribute record, the people, the
  output record, and the fixed field order that the positional gap vector
  follows.
- `Sums` (sums.dfy): left-to-right sums and dot products, matching the
  Go program's `+=` loops.
- `Normalizer` (normalize.dfy): division by the divisor, applied to every
  person.
- `Centroid` (centroid.dfy): the team mean.
- `Distance` (distance.dfy): the squared distance, written with the
  Go program's `math.Pow(x, 2)`. The square root is a parameter, specified by
  `IsSqrt`.
- `Fit` (fit.dfy): the average-fit score.
- `Gap` (gap.dfy): the gap vector, the total gap, the contribution and the
  gap-filler score.
- `Composite` (composite.dfy): the 80/20 blend.
- `Scoring` (scoring.dfy): the pipeline end to end.

The pipeline returns either a list of scored applicants, in input order, or
an error. There are two errors, one for each input on which the Go program's
arithmetic produces not-a-number scores:

- `EmptyTeam`: there are applicants but the team is empty. The centroid
  then divides by zero.
- `ZeroTotalGap`: there are applicants and the normalised centroid is at
  least 1 in every field. The gap-filler score then divides zero by zero.

In the Go program, these NaN scores reach `json.MarshalIndent`, which
rejects them, and the program stops through `log.Fatal` (main.go:172-175).
With no applicants the Go program still computes the centroid and the
total gap (main.go:66, 99-107), which are NaN for an empty team and are
printed. But no score is computed, so no NaN reaches the output. The model
returns an empty list of scores in that case.

`Sums.Sum`, `Sums.Dot`, `Centroid.SumAttributes`, `Distance.Pow` and
`Scoring.NormalizedCentroid` are helpers. They compute the `+=` loops,
`math.Pow(x, 2)` and the normalised team's centroid behind the members
listed below, and their properties are stated by those members.

## Model

| member | source | states |
|---|---|---|
| AttributeVector.AsSeq | main.go:241-246 | the applicant's vector has four entries, and entry `Index(f)` is field `f`, in declaration order |
| Normalizer.NormalizeInput | main.go:225-230 | every normalised field times the divisor gives back the raw field |
| Normalizer.NormalizeRoundTrip | main.go:225-230 | scaling a normalised record back by the divisor recovers the raw record |
| Normalizer.NormalizeUnitRangeIff | main.go:225-230 | for a positive divisor, the normalised record lies in [0,1] exactly when every raw field lies in [0, divisor] |
| Normalizer.NormalizeAll | main.go:56-63 | every team member and every applicant keeps name and position, and only the attributes are normalised |
| Centroid.SumAttributesByField | main.go:191-196 | accumulating whole records field by field gives, for each field, the sum of that field's column |
| Centroid.TeamCentroid | main.go:187-205 | each centroid field is the sum of that field over the team divided by the team size |
| Centroid.CentroidOfUniformTeam | main.go:187-205 | a team whose members all share one record has that record as centroid |
| Centroid.CentroidOfSingleMember | main.go:187-205 | a one-member team's centroid is that member's record |
| Centroid.CentroidInUnitRange | main.go:187-205 | members within [0,1] keep every centroid field within [0,1] |
| Centroid.CentroidOfTwoMembers | main.go:187-205 | the members (1,0,0,0) and (0,1,0,0) have centroid (0.5,0.5,0,0) |
| Distance.SquareSign | main.go:212-215 | a `math.Pow(x, 2)` term is never negative, and is positive exactly when x is non-zero |
| Distance.DistanceSquared | main.go:211-215 | the sum under the square root is never negative |
| Distance.DistanceSquaredPositive | main.go:211-215 | the sum under the square root is positive exactly when the centroid and the applicant differ |
| Distance.SqrtUnique | main.go:211 | a non-negative square root is unique, so the distance is well defined |
| Distance.EuclideanDistance | main.go:209-216 | with a sound square root, the result squared is the sum of squared differences, and it is non-negative |
| Distance.DistanceSymmetric | main.go:209-216 | swapping centroid and applicant leaves the distance unchanged |
| Distance.DistanceZeroIff | main.go:209-216 | the distance is positive exactly when the records differ, and 0 when they are equal |
| Distance.DistanceInUnitBox | main.go:209-216 | records within [0,1] are at squared distance at most 4, so at distance at most 2 |
| Fit.SqrtDimensionsIsSqrt | main.go:220 | 2 is the square root of the field count 4 that the Go program obtains by reflection |
| Fit.AverageFit | main.go:219-221 | the shortfall from a perfect fit, times √4, is the distance |
| Fit.AverageFitOfZeroDistance | main.go:219-221 | an applicant at distance 0 has fit 1 |
| Fit.AverageFitStrictlyDecreasing | main.go:219-221 | a larger distance gives a strictly lower fit, and conversely |
| Fit.AverageFitInUnitRangeIff | main.go:219-221 | the fit is in [0,1] exactly when the distance is in [0,2]; it is not clamped (distance 4 gives -1) |
| Fit.AverageFitOfApplicant | main.go:209-221 | at the Euclidean distance, the fit is at most 1, equals 1 exactly for an applicant equal to the centroid, and is at least 0 within the unit range |
| Gap.Shortfall | main.go:235 | a gap component is the larger of 0 and 1 - field: non-negative, not below 1 - field, and equal to one of the two |
| Gap.ShortfallBounds | main.go:235 | a field at or above 1 has no gap, and a non-negative field has a gap of at most 1 |
| Gap.GapVector | main.go:234-236 | four entries in field order, each the larger of 0 and one minus that centroid field |
| Gap.GapVectorNonNegative | main.go:234-236 | every gap entry is non-negative |
| Gap.TotalGap | main.go:104-107 | the total of non-negative gaps is non-negative |
| Gap.TotalGapOfCentroid | main.go:99-107 | the total gap is non-negative, is zero exactly when every centroid field is at least 1, and is at most 4 for a non-negative centroid |
| Gap.ApplicantContribution | main.go:240-253 | with non-negative gaps and fields, the contribution is non-negative |
| Gap.ContributionByField | main.go:240-253 | each applicant field is weighted by the gap at its own position |
| Gap.ContributionAdditive | main.go:240-253 | the contribution of a sum of records is the sum of the contributions |
| Gap.ContributionHomogeneous | main.go:240-253 | scaling the applicant's record scales the contribution |
| Gap.ContributionWithinTotalGap | main.go:240-253 | for non-negative gaps and an applicant in [0,1], the contribution lies between 0 and the total gap |
| Gap.ContributionOfPerfectApplicant | main.go:240-253 | the applicant (1,1,1,1) covers exactly the total gap |
| Gap.GapFillerScore | main.go:146 | the gap-filler score times the total gap is the contribution |
| Gap.GapFillerInUnitRange | main.go:146 | for a positive total gap, the gap-filler score is in [0,1] exactly when the contribution is between 0 and the total gap |
| Composite.WeightsAreConvex | main.go:258-260 | the weights 0.80 and 0.20 are non-negative and sum to 1 |
| Composite.ApplicantScore | main.go:258-260 | the score lies between the fit and the gap-filler score, and moves 80% of the way from the gap-filler score to the fit |
| Composite.ApplicantScoreOfExtremes | main.go:258-260 | partial scores (1,1) give 1, and (0,0) give 0 |
| Composite.ApplicantScoreMonotone | main.go:258-260 | the score is strictly increasing in each partial score, and monotone in both together |
| Composite.ApplicantScoreInUnitRange | main.go:258-260 | partial scores in [0,1] give a score in [0,1] |
| Scoring.ScoreApplicant | main.go:139-150 | each score is filed under the applicant's own name |
| Scoring.ScoreApplicantInUnitRange | main.go:139-150 | with a sound square root, unit-range centroid and applicant, and a non-negative gap with positive total, the score is in [0,1] |
| Scoring.ScoreEach | main.go:139-150 | one score per applicant, in applicant order, each computed against the same centroid, gap vector and total gap |
| Scoring.ScoreApplicants | main.go:56-150 | fails with EmptyTeam exactly for applicants and an empty team; fails with ZeroTotalGap exactly for applicants and a non-empty team whose normalised centroid is at least 1 everywhere; otherwise one score per applicant, in order, under the applicant's name, each the normalised applicant's score against the normalised team's centroid, its gap vector and its non-zero total gap |
| Scoring.NormalizedOnScaleInUnitRange | main.go:56-63 | raw values on the 0–10 scale normalise into [0,1] |
| Scoring.ScoresInUnitRange | main.go:56-150 | with a sound square root and every raw value on the 0–10 scale, every produced score is in [0,1] |
| Scoring.WorkedExampleGap | main.go:99-118 | for the centroid (0.5,0.5,0.5,0.5), the gap vector is 0.5 everywhere, the total gap is 2, and the applicant (1,1,1,1) contributes 2 |
| Scoring.WorkedExampleDistanceSquared | main.go:209-216 | the centroid (0.5,0.5,0.5,0.5) and the applicant (1,1,1,1) are at squared distance 1 |
| Scoring.WorkedExampleDistance | main.go:209-216 | with a sound square root, that distance is 1 |
| Scoring.WorkedExampleApplicant | main.go:139-150 | at distance 1, covering all of a total gap of 2, the applicant scores 0.6 |
| Scoring.ScoreOfWorkedExample | main.go:56-150 | a team member at 5 everywhere and an applicant at 10 everywhere: the applicant scores 0.6 |
| Scoring.FullTeamHasNoGap | main.go:99-150 | a team member at 10 everywhere leaves a total gap of zero, so scoring any applicant fails with ZeroTotalGap |
| Scoring.NoApplicantsNoScores | main.go:139-164 | without applicants the result is empty, whatever the team |

## Left out

- Reading `input.json`, decoding and encoding JSON, writing
  `scored_applicants.json`, the `log.Fatal` exits and all printing
  (main.go:47-54, 68-70, 82-95, 101, 109-111, 120-134, 151-155, 157-181).
  These are I/O.
- Scoring.ScoreApplicants: with no applicants it returns `Success([])`,
  which stands for the Go program's output `"scoredApplicants": null` (a
  nil slice at main.go:158 encoded by `json.MarshalIndent`).
- `math.Sqrt` is a parameter of the pipeline. `SqrtSound` states what it
  must return; the model does not compute square roots.
- The reflective field count (`reflect.TypeOf(Attributes{}).NumField()`)
  is the constant `Dimensions` = 4. Its square root is the constant 2.
- IEEE-754 behaviour: rounding, NaN and infinities. Fields are exact reals.
  The two inputs on which the Go program computes NaN scores are the
  model's `EmptyTeam` and `ZeroTotalGap` errors. In the Go program they
  end the program only when JSON encoding rejects the NaN, after the NaN
  values have been printed.
- The Go program keeps distances, contributions and scores in maps keyed by
  applicant name. Its output order is therefore random, and applicants
  that share a name collapse into one entry. The model returns one entry
  per applicant, in input order.
- `NormalizeInput` updates its record in place. The model returns the
  normalised record.
- `ApplicantContribution` indexes a four-entry applicant vector with the
  gap vector's positions, so a longer gap vector makes the Go program panic.
  The model requires a gap vector of at most four entries. The pipeline
  always passes exactly four.
- Distance.EuclideanDistance: says nothing about its result for a square
  root that is not sound, because `math.Sqrt` itself is not modelled.
- Scoring.ScoreApplicant: its own contract states only the name it files
  the score under. The value of the score is stated by
  `Scoring.ScoreApplicantInUnitRange`, `Scoring.WorkedExampleApplicant`
  and the `Fit`, `Gap` and `Composite` members it composes.
