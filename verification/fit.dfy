/**
  The average-fit ("vibe") score: one minus the distance divided by the
  square root of the number of attribute fields. The Go program obtains the
  field count by reflection; it is the constant `Dimensions` here, whose
  square root is exactly 2.
 */
module Fit {
  import opened AttributeVector
  import opened Distance

  /** The square root of the field count, the largest distance within the unit box. */
  const SqrtDimensions: real := 2.0

  lemma SqrtDimensionsIsSqrt()
    ensures IsSqrt(Dimensions as real, SqrtDimensions)
  {
  }

  /**
    The fit of an applicant at the given distance. Scaling the shortfall
    from a perfect fit by the square root of the field count gives back the
    distance; the Go program does not clamp the result.
   */
  function AverageFit(distance: real): (r: real)
    ensures SqrtDimensions * (1.0 - r) == distance
  {
    1.0 - distance / SqrtDimensions
  }

  /** An applicant at the centroid fits perfectly. */
  lemma AverageFitOfZeroDistance()
    ensures AverageFit(0.0) == 1.0
  {
  }

  /** A larger distance gives a strictly lower fit. */
  lemma AverageFitStrictlyDecreasing(near: real, far: real)
    ensures near < far <==> AverageFit(far) < AverageFit(near)
  {
  }

  /**
    The fit lies in [0, 1] exactly when the distance lies in [0, 2]; beyond
    that the fit goes negative, for instance -1 at distance 4.
   */
  lemma AverageFitInUnitRangeIff(distance: real)
    ensures 0.0 <= AverageFit(distance) <= 1.0 <==> 0.0 <= distance <= SqrtDimensions
    ensures AverageFit(4.0) == -1.0
  {
  }

  /**
    For a centroid and an applicant within the unit range, the fit at their
    Euclidean distance lies in [0, 1], and it is 1 exactly when the applicant
    equals the centroid.
   */
  lemma AverageFitOfApplicant(centroid: Attributes, applicant: Attributes, d: real)
    requires IsEuclideanDistance(centroid, applicant, d)
    ensures AverageFit(d) <= 1.0
    ensures AverageFit(d) == 1.0 <==> centroid == applicant
    ensures InUnitRange(centroid) && InUnitRange(applicant) ==> 0.0 <= AverageFit(d)
  {
    DistanceZeroIff(centroid, applicant, d);
    if InUnitRange(centroid) && InUnitRange(applicant) {
      DistanceInUnitBox(centroid, applicant, d);
    }
  }
}
