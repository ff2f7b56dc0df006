/**
  Euclidean distance between the team centroid and an applicant. The Go program
  squares each field difference with `math.Pow(x, 2)` and takes `math.Sqrt`
  of the sum. Real square roots are not computable here: the square root is
  a parameter, and what it must return is stated by `IsSqrt`.
 */
module Distance {
  import opened AttributeVector

  /** `x` raised to a natural power, as `math.Pow` computes it for such exponents. */
  function Pow(x: real, n: nat): real
  {
    if n == 0 then 1.0 else x * Pow(x, n - 1)
  }

  /** The square unfolded one step; the first power is the base itself. */
  lemma PowTwo(t: real)
    ensures Pow(t, 2) == t * Pow(t, 1)
    ensures Pow(t, 1) == t
  {
  }

  /** A square is never negative, and is positive exactly when the base is non-zero. */
  lemma SquareSign(t: real)
    ensures 0.0 <= Pow(t, 2)
    ensures 0.0 < Pow(t, 2) <==> t != 0.0
  {
    PowTwo(t);
  }

  /** Negating the base leaves the square unchanged. */
  lemma SquareOfNegation(t: real)
    ensures Pow(t, 2) == Pow(-t, 2)
  {
    PowTwo(t);
    PowTwo(-t);
  }

  /** On non-negative reals squaring is strictly increasing. */
  lemma SquareStrictlyIncreasing(y: real, z: real)
    requires 0.0 <= y < z
    ensures Pow(y, 2) < Pow(z, 2)
  {
    PowTwo(y);
    PowTwo(z);
    var low, middle, high := y * Pow(y, 1), y * Pow(z, 1), z * Pow(z, 1);
    assert low <= middle;
    assert middle < high;
    assert Pow(y, 2) == low;
    assert Pow(z, 2) == high;
  }

  /** A base in [-1, 1] has a square of at most 1. */
  lemma SquareOfUnitBase(t: real)
    requires -1.0 <= t <= 1.0
    ensures Pow(t, 2) <= 1.0
  {
    PowTwo(t);
    var p := Pow(t, 1);
    if 0.0 <= t {
      assert t * p <= 1.0 * p;
    } else {
      assert t * p <= (-1.0) * p;
    }
  }

  /** The sum over the four fields of the squared field differences. */
  function DistanceSquared(centroid: Attributes, applicant: Attributes): (r: real)
    ensures 0.0 <= r
  {
    SquareSign(centroid.intelligence - applicant.intelligence);
    SquareSign(centroid.strength - applicant.strength);
    SquareSign(centroid.endurance - applicant.endurance);
    SquareSign(centroid.spicyFoodTolerance - applicant.spicyFoodTolerance);
    Pow(centroid.intelligence - applicant.intelligence, 2)
    + Pow(centroid.strength - applicant.strength, 2)
    + Pow(centroid.endurance - applicant.endurance, 2)
    + Pow(centroid.spicyFoodTolerance - applicant.spicyFoodTolerance, 2)
  }

  /** The squared distance is positive exactly when the two records differ. */
  lemma DistanceSquaredPositive(centroid: Attributes, applicant: Attributes)
    ensures 0.0 < DistanceSquared(centroid, applicant) <==> centroid != applicant
  {
    SquareSign(centroid.intelligence - applicant.intelligence);
    SquareSign(centroid.strength - applicant.strength);
    SquareSign(centroid.endurance - applicant.endurance);
    SquareSign(centroid.spicyFoodTolerance - applicant.spicyFoodTolerance);
  }

  /** `y` is the non-negative square root of `x`. */
  predicate IsSqrt(x: real, y: real)
  {
    0.0 <= y && Pow(y, 2) == x
  }

  /** `sqrt` returns the square root of every non-negative real. */
  ghost predicate SqrtSound(sqrt: real -> real)
  {
    forall x: real {:trigger sqrt(x)} :: 0.0 <= x ==> IsSqrt(x, sqrt(x))
  }

  /** A square root, when there is one, is unique: the distance is well defined. */
  lemma SqrtUnique(x: real, y: real, z: real)
    requires IsSqrt(x, y) && IsSqrt(x, z)
    ensures y == z
  {
    if y < z {
      SquareStrictlyIncreasing(y, z);
    } else if z < y {
      SquareStrictlyIncreasing(z, y);
    }
  }

  /** The square root of 1 is 1. */
  lemma SqrtOfOne(y: real)
    requires IsSqrt(1.0, y)
    ensures y == 1.0
  {
    PowTwo(1.0);
    SqrtUnique(1.0, y, 1.0);
  }

  /** `d` is the Euclidean distance between the two records. */
  predicate IsEuclideanDistance(centroid: Attributes, applicant: Attributes, d: real)
  {
    IsSqrt(DistanceSquared(centroid, applicant), d)
  }

  /**
    The distance as the Go program computes it: the square root of the squared
    distance. With a sound square root it is the Euclidean distance.
   */
  function EuclideanDistance(centroid: Attributes, applicant: Attributes, sqrt: real -> real): (d: real)
    ensures SqrtSound(sqrt) ==> IsEuclideanDistance(centroid, applicant, d)
  {
    sqrt(DistanceSquared(centroid, applicant))
  }

  /** Swapping the two records leaves the distance unchanged. */
  lemma DistanceSymmetric(centroid: Attributes, applicant: Attributes, d: real)
    ensures DistanceSquared(centroid, applicant) == DistanceSquared(applicant, centroid)
    ensures IsEuclideanDistance(centroid, applicant, d) <==> IsEuclideanDistance(applicant, centroid, d)
  {
    SquareOfNegation(centroid.intelligence - applicant.intelligence);
    SquareOfNegation(centroid.strength - applicant.strength);
    SquareOfNegation(centroid.endurance - applicant.endurance);
    SquareOfNegation(centroid.spicyFoodTolerance - applicant.spicyFoodTolerance);
  }

  /** The distance is positive exactly when the two records differ, and zero otherwise. */
  lemma DistanceZeroIff(centroid: Attributes, applicant: Attributes, d: real)
    requires IsEuclideanDistance(centroid, applicant, d)
    ensures 0.0 < d <==> centroid != applicant
    ensures centroid == applicant ==> d == 0.0
  {
    DistanceSquaredPositive(centroid, applicant);
    SquareSign(d);
  }

  /**
    Two records within the unit range are at squared distance at most
    `Dimensions`, so at distance at most 2.
   */
  lemma DistanceInUnitBox(centroid: Attributes, applicant: Attributes, d: real)
    requires InUnitRange(centroid) && InUnitRange(applicant)
    requires IsEuclideanDistance(centroid, applicant, d)
    ensures DistanceSquared(centroid, applicant) <= Dimensions as real
    ensures d <= 2.0
  {
    forall f: Field
      ensures Pow(Get(centroid, f) - Get(applicant, f), 2) <= 1.0
    {
      SquareOfUnitBase(Get(centroid, f) - Get(applicant, f));
    }
    assert Pow(Get(centroid, Intelligence) - Get(applicant, Intelligence), 2) <= 1.0;
    assert Pow(Get(centroid, Strength) - Get(applicant, Strength), 2) <= 1.0;
    assert Pow(Get(centroid, Endurance) - Get(applicant, Endurance), 2) <= 1.0;
    assert Pow(Get(centroid, SpicyFoodTolerance) - Get(applicant, SpicyFoodTolerance), 2) <= 1.0;
    if 2.0 < d {
      SquareStrictlyIncreasing(2.0, d);
      PowTwo(2.0);
    }
  }
}
