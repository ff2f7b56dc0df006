/**
  The gap-filler side of the score: how far the team centroid falls short of
  the perfect profile in each field (the gap vector), the total of those
  shortfalls, how much of them an applicant covers (the contribution), and
  the share of the total gap that this covers (the gap-filler score).
 */
module Gap {
  import opened AttributeVector
  import opened Sums

  /**
    The shortfall of one centroid field from 1, floored at 0: the larger of
    0 and `1 - x`.
   */
  function Shortfall(x: real): (r: real)
    ensures 0.0 <= r && 1.0 - x <= r
    ensures r == 0.0 || r == 1.0 - x
  {
    if 1.0 - x > 0.0 then 1.0 - x else 0.0
  }

  /** A field at or above 1 has no shortfall; a non-negative field has at most 1. */
  lemma ShortfallBounds(x: real)
    ensures Shortfall(x) == 0.0 <==> 1.0 <= x
    ensures 0.0 <= x ==> Shortfall(x) <= 1.0
  {
  }

  /**
    The gap vector of a centroid, one shortfall per field in declaration
    order: each entry is the least non-negative value not below `1 - field`.
   */
  function GapVector(centroid: Attributes): (gap: seq<real>)
    ensures |gap| == Dimensions
    ensures forall f: Field ::
              0.0 <= gap[Index(f)] && 1.0 - Get(centroid, f) <= gap[Index(f)]
              && (gap[Index(f)] == 0.0 || gap[Index(f)] == 1.0 - Get(centroid, f))
  {
    [Shortfall(centroid.intelligence),
     Shortfall(centroid.strength),
     Shortfall(centroid.endurance),
     Shortfall(centroid.spicyFoodTolerance)]
  }

  /** Every entry of a gap vector is non-negative. */
  predicate NonNegativeEntries(gap: seq<real>)
  {
    forall i :: 0 <= i < |gap| ==> 0.0 <= gap[i]
  }

  lemma GapVectorNonNegative(centroid: Attributes)
    ensures NonNegativeEntries(GapVector(centroid))
  {
  }

  /** The total gap: the sum of the gap vector's entries, added front to back. */
  function TotalGap(gap: seq<real>): (total: real)
    ensures NonNegativeEntries(gap) ==> 0.0 <= total
  {
    assert NonNegativeEntries(gap) ==> 0.0 <= Sum(gap) by {
      if NonNegativeEntries(gap) {
        SumZeroIff(gap);
      }
    }
    Sum(gap)
  }

  /**
    The total gap of a centroid is never negative; it is zero exactly when
    every centroid field is at least 1; and for a centroid with non-negative
    fields it is at most the number of fields.
   */
  lemma TotalGapOfCentroid(centroid: Attributes)
    ensures 0.0 <= TotalGap(GapVector(centroid))
    ensures TotalGap(GapVector(centroid)) == 0.0 <==> forall f: Field :: 1.0 <= Get(centroid, f)
    ensures NonNegative(centroid) ==> TotalGap(GapVector(centroid)) <= Dimensions as real
  {
    var gap := GapVector(centroid);
    GapVectorNonNegative(centroid);
    SumOfFour(gap);
    ShortfallBounds(centroid.intelligence);
    ShortfallBounds(centroid.strength);
    ShortfallBounds(centroid.endurance);
    ShortfallBounds(centroid.spicyFoodTolerance);
    assert gap == [Shortfall(centroid.intelligence), Shortfall(centroid.strength),
                   Shortfall(centroid.endurance), Shortfall(centroid.spicyFoodTolerance)];
    if forall f: Field :: 1.0 <= Get(centroid, f) {
      assert 1.0 <= Get(centroid, Intelligence) && 1.0 <= Get(centroid, Strength)
          && 1.0 <= Get(centroid, Endurance) && 1.0 <= Get(centroid, SpicyFoodTolerance);
    }
    if NonNegative(centroid) {
      assert 0.0 <= Get(centroid, Intelligence) && 0.0 <= Get(centroid, Strength)
          && 0.0 <= Get(centroid, Endurance) && 0.0 <= Get(centroid, SpicyFoodTolerance);
    }
  }

  /**
    The applicant's contribution: the gap entries weighted by the
    applicant's fields, position by position. The Go program indexes a
    four-entry vector of applicant fields with the gap vector's positions,
    so a gap vector longer than that would fail there.
   */
  function ApplicantContribution(gap: seq<real>, applicant: Attributes): (r: real)
    requires |gap| <= Dimensions
    ensures NonNegativeEntries(gap) && NonNegative(applicant) ==> 0.0 <= r
  {
    var weights := AsSeq(applicant)[..|gap|];
    assert NonNegativeEntries(gap) && NonNegative(applicant) ==> 0.0 <= Dot(gap, weights) by {
      if NonNegativeEntries(gap) && NonNegative(applicant) {
        assert forall i :: 0 <= i < |gap| ==> weights[i] == Get(applicant, FieldAt(i));
        DotNonNegative(gap, weights);
      }
    }
    Dot(gap, weights)
  }

  /** For a full gap vector, the contribution weighs each field by its own gap. */
  lemma ContributionByField(gap: seq<real>, applicant: Attributes)
    requires |gap| == Dimensions
    ensures ApplicantContribution(gap, applicant)
            == gap[Index(Intelligence)] * applicant.intelligence
             + gap[Index(Strength)] * applicant.strength
             + gap[Index(Endurance)] * applicant.endurance
             + gap[Index(SpicyFoodTolerance)] * applicant.spicyFoodTolerance
  {
    assert AsSeq(applicant)[..|gap|] == AsSeq(applicant);
    DotOfFour(gap, AsSeq(applicant));
  }

  /** The contribution is additive in the applicant's record. */
  lemma ContributionAdditive(gap: seq<real>, a: Attributes, b: Attributes)
    requires |gap| <= Dimensions
    ensures ApplicantContribution(gap, Add(a, b))
            == ApplicantContribution(gap, a) + ApplicantContribution(gap, b)
  {
    var n := |gap|;
    var ws, ys, zs := AsSeq(Add(a, b))[..n], AsSeq(a)[..n], AsSeq(b)[..n];
    forall i | 0 <= i < n
      ensures ws[i] == ys[i] + zs[i]
    {
      var f := FieldAt(i);
      assert ws[i] == Get(Add(a, b), f);
    }
    DotAdditive(gap, ys, zs, ws);
  }

  /** Scaling the applicant's record scales the contribution. */
  lemma ContributionHomogeneous(gap: seq<real>, a: Attributes, k: real)
    requires |gap| <= Dimensions
    ensures ApplicantContribution(gap, Scale(a, k)) == k * ApplicantContribution(gap, a)
  {
    var n := |gap|;
    var ws, ys := AsSeq(Scale(a, k))[..n], AsSeq(a)[..n];
    forall i | 0 <= i < n
      ensures ws[i] == k * ys[i]
    {
      var f := FieldAt(i);
      assert ws[i] == Get(Scale(a, k), f);
    }
    DotHomogeneous(gap, ys, ws, k);
  }

  /**
    With a non-negative gap vector and an applicant within the unit range,
    the contribution lies between 0 and the total gap.
   */
  lemma ContributionWithinTotalGap(gap: seq<real>, applicant: Attributes)
    requires |gap| <= Dimensions
    requires NonNegativeEntries(gap)
    requires InUnitRange(applicant)
    ensures 0.0 <= ApplicantContribution(gap, applicant) <= TotalGap(gap)
  {
    var weights := AsSeq(applicant)[..|gap|];
    forall i | 0 <= i < |weights|
      ensures 0.0 <= weights[i] <= 1.0
    {
      assert weights[i] == Get(applicant, FieldAt(i));
    }
    DotWithinSum(gap, weights);
  }

  /** The perfect applicant, 1 in every field, covers the whole gap. */
  lemma ContributionOfPerfectApplicant(gap: seq<real>)
    requires |gap| <= Dimensions
    ensures ApplicantContribution(gap, Ones) == TotalGap(gap)
  {
    var weights := AsSeq(Ones)[..|gap|];
    forall i | 0 <= i < |weights|
      ensures weights[i] == 1.0
    {
      assert weights[i] == Get(Ones, FieldAt(i));
    }
    DotWithOnes(gap, weights);
  }

  /**
    The share of the total gap the contribution covers. The Go program divides
    without a check; a zero total gap is excluded here and reported by the
    pipeline as an error instead.
   */
  function GapFillerScore(contribution: real, totalGap: real): (r: real)
    requires totalGap != 0.0
    ensures r * totalGap == contribution
  {
    contribution / totalGap
  }

  /**
    For a positive total gap, the gap-filler score lies in [0, 1] exactly
    when the contribution lies between 0 and the total gap.
   */
  lemma GapFillerInUnitRange(contribution: real, totalGap: real)
    requires 0.0 < totalGap
    ensures 0.0 <= GapFillerScore(contribution, totalGap) <= 1.0
            <==> 0.0 <= contribution <= totalGap
  {
  }
}
