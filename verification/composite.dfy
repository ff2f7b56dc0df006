/**
  The final compatibility score: a fixed weighted average of the average
  fit and the gap-filler score, 80% on fit and 20% on filling gaps.
 */
module Composite {

  const FitWeight: real := 0.80
  const GapFillerWeight: real := 0.20

  /** The two weights form a convex combination. */
  lemma WeightsAreConvex()
    ensures 0.0 <= FitWeight && 0.0 <= GapFillerWeight
    ensures FitWeight + GapFillerWeight == 1.0
  {
  }

  /**
    The applicant's score. Being a convex combination, it lies between the
    two partial scores, and it moves from the gap-filler score towards the
    fit by the fit's weight.
   */
  function ApplicantScore(averageFit: real, gapFillerScore: real): (r: real)
    ensures averageFit <= gapFillerScore ==> averageFit <= r <= gapFillerScore
    ensures gapFillerScore <= averageFit ==> gapFillerScore <= r <= averageFit
    ensures r - gapFillerScore == FitWeight * (averageFit - gapFillerScore)
  {
    FitWeight * averageFit + GapFillerWeight * gapFillerScore
  }

  /** Perfect partial scores give a perfect score, and zero ones give zero. */
  lemma ApplicantScoreOfExtremes()
    ensures ApplicantScore(1.0, 1.0) == 1.0
    ensures ApplicantScore(0.0, 0.0) == 0.0
  {
  }

  /** The score is strictly increasing in each partial score. */
  lemma ApplicantScoreMonotone(fit1: real, fit2: real, filler1: real, filler2: real)
    ensures fit1 < fit2 <==> ApplicantScore(fit1, filler1) < ApplicantScore(fit2, filler1)
    ensures filler1 < filler2 <==> ApplicantScore(fit1, filler1) < ApplicantScore(fit1, filler2)
    ensures fit1 <= fit2 && filler1 <= filler2 ==> ApplicantScore(fit1, filler1) <= ApplicantScore(fit2, filler2)
  {
  }

  /** Partial scores in [0, 1] give a score in [0, 1]. */
  lemma ApplicantScoreInUnitRange(averageFit: real, gapFillerScore: real)
    requires 0.0 <= averageFit <= 1.0 && 0.0 <= gapFillerScore <= 1.0
    ensures 0.0 <= ApplicantScore(averageFit, gapFillerScore) <= 1.0
  {
  }
}
