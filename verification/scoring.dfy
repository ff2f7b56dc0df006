/**
  The scoring pipeline end to end: normalise every record by 10, take the
  team centroid, its gap vector and total gap, and give every applicant the
  weighted score of its average fit and its gap-filler score.
 */
module Scoring {
  import opened AttributeVector
  import opened Normalizer
  import opened Centroid
  import opened Distance
  import opened Fit
  import opened Gap
  import opened Composite
  import opened Sums

  /** The decoded input document: the current team and the applicants. */
  datatype Input = Input(team: seq<Person>, applicants: seq<Person>)

  /**
    The two inputs for which the Go program computes not-a-number scores,
    which its JSON encoder then refuses to write, ending the program.
   */
  datatype ScoreError =
    | EmptyTeam     // the centroid divides by a team size of zero
    | ZeroTotalGap  // every gap-filler score divides by a total gap of zero

  datatype Result<T> = Success(value: T) | Failure(error: ScoreError)

  /** Raw attribute values are given on a scale of 0 to 10. */
  const Divisor: real := 10.0

  /** One applicant's score against the team's centroid, gap vector and total gap. */
  function ScoreApplicant(applicant: Person, centroid: Attributes, gap: seq<real>,
                          totalGap: real, sqrt: real -> real): (r: ScoredApplicant)
    requires |gap| <= Dimensions && totalGap != 0.0
    ensures r.name == applicant.name
  {
    var distance := EuclideanDistance(centroid, applicant.attributes, sqrt);
    var contribution := ApplicantContribution(gap, applicant.attributes);
    ScoredApplicant(
      applicant.name,
      ApplicantScore(AverageFit(distance), GapFillerScore(contribution, totalGap)))
  }

  /**
    With a sound square root, a centroid and an applicant in the unit range
    and a non-negative gap vector with a positive total, the score lies in
    [0, 1].
   */
  lemma ScoreApplicantInUnitRange(applicant: Person, centroid: Attributes, gap: seq<real>,
                                  sqrt: real -> real)
    requires |gap| <= Dimensions && NonNegativeEntries(gap) && TotalGap(gap) > 0.0
    requires SqrtSound(sqrt)
    requires InUnitRange(centroid) && InUnitRange(applicant.attributes)
    ensures 0.0 <= ScoreApplicant(applicant, centroid, gap, TotalGap(gap), sqrt).score <= 1.0
  {
    var distance := EuclideanDistance(centroid, applicant.attributes, sqrt);
    AverageFitOfApplicant(centroid, applicant.attributes, distance);
    var contribution := ApplicantContribution(gap, applicant.attributes);
    ContributionWithinTotalGap(gap, applicant.attributes);
    GapFillerInUnitRange(contribution, TotalGap(gap));
    ApplicantScoreInUnitRange(AverageFit(distance), GapFillerScore(contribution, TotalGap(gap)));
  }

  /** Every applicant scored in input order. */
  function ScoreEach(applicants: seq<Person>, centroid: Attributes, gap: seq<real>,
                     totalGap: real, sqrt: real -> real): (r: seq<ScoredApplicant>)
    requires |gap| <= Dimensions && totalGap != 0.0
    ensures |r| == |applicants|
    ensures forall i :: 0 <= i < |r| ==>
              r[i] == ScoreApplicant(applicants[i], centroid, gap, totalGap, sqrt)
  {
    if |applicants| == 0 then []
    else
      [ScoreApplicant(applicants[0], centroid, gap, totalGap, sqrt)]
      + ScoreEach(applicants[1..], centroid, gap, totalGap, sqrt)
  }

  /** The centroid of the normalised team. */
  function NormalizedCentroid(team: seq<Person>): Attributes
    requires |team| > 0
  {
    TeamCentroid(NormalizeAll(team, Divisor))
  }

  /**
    The whole pipeline. With no applicants no score is computed, so no
    not-a-number value reaches the output, and the result is empty.
    Otherwise an empty team, or a team whose normalised centroid reaches 1
    in every field (so the total gap is zero), is an error; in every other
    case each applicant, normalised, is scored against the normalised
    team's centroid, its gap vector and its total gap, in input order and
    under its own name.
   */
  function ScoreApplicants(input: Input, sqrt: real -> real): (r: Result<seq<ScoredApplicant>>)
    ensures r == Failure(EmptyTeam) <==> |input.team| == 0 && |input.applicants| > 0
    ensures r == Failure(ZeroTotalGap) <==>
              |input.team| > 0 && |input.applicants| > 0
              && forall f: Field :: 1.0 <= Get(NormalizedCentroid(input.team), f)
    ensures r.Success? ==> |r.value| == |input.applicants|
    ensures r.Success? ==> forall i :: 0 <= i < |r.value| ==> r.value[i].name == input.applicants[i].name
    ensures r.Success? && |input.team| > 0 && |input.applicants| > 0 ==>
              TotalGap(GapVector(NormalizedCentroid(input.team))) != 0.0
    ensures r.Success? && |input.team| > 0 ==>
              forall i :: 0 <= i < |r.value| ==>
                r.value[i] == ScoreApplicant(NormalizeAll(input.applicants, Divisor)[i],
                                             NormalizedCentroid(input.team),
                                             GapVector(NormalizedCentroid(input.team)),
                                             TotalGap(GapVector(NormalizedCentroid(input.team))),
                                             sqrt)
  {
    var team := NormalizeAll(input.team, Divisor);
    var applicants := NormalizeAll(input.applicants, Divisor);
    if |applicants| == 0 then
      Success([])
    else if |team| == 0 then
      Failure(EmptyTeam)
    else
      var centroid := TeamCentroid(team);
      var gap := GapVector(centroid);
      var totalGap := TotalGap(gap);
      TotalGapOfCentroid(centroid);
      assert NormalizedCentroid(input.team) == centroid;
      if totalGap == 0.0 then
        Failure(ZeroTotalGap)
      else
        Success(ScoreEach(applicants, centroid, gap, totalGap, sqrt))
  }

  /** Every raw field of every person lies on the 0 to 10 scale. */
  predicate OnScale(people: seq<Person>)
  {
    forall i :: 0 <= i < |people| ==> WithinDivisor(people[i].attributes, Divisor)
  }

  lemma NormalizedOnScaleInUnitRange(people: seq<Person>)
    requires OnScale(people)
    ensures forall i :: 0 <= i < |people| ==> InUnitRange(NormalizeAll(people, Divisor)[i].attributes)
  {
  }

  /**
    With a sound square root and every raw value on the 0 to 10 scale, every
    score the pipeline produces lies in [0, 1].
   */
  lemma ScoresInUnitRange(input: Input, sqrt: real -> real)
    requires SqrtSound(sqrt)
    requires OnScale(input.team) && OnScale(input.applicants)
    ensures ScoreApplicants(input, sqrt).Success? ==>
              forall i :: 0 <= i < |ScoreApplicants(input, sqrt).value| ==>
                0.0 <= ScoreApplicants(input, sqrt).value[i].score <= 1.0
  {
    var team := NormalizeAll(input.team, Divisor);
    var applicants := NormalizeAll(input.applicants, Divisor);
    if |applicants| > 0 && |team| > 0 {
      var centroid := TeamCentroid(team);
      var gap := GapVector(centroid);
      TotalGapOfCentroid(centroid);
      GapVectorNonNegative(centroid);
      if TotalGap(gap) != 0.0 {
        NormalizedOnScaleInUnitRange(input.team);
        NormalizedOnScaleInUnitRange(input.applicants);
        CentroidInUnitRange(team);
        var scores := ScoreEach(applicants, centroid, gap, TotalGap(gap), sqrt);
        forall i | 0 <= i < |scores|
          ensures 0.0 <= scores[i].score <= 1.0
        {
          ScoreApplicantInUnitRange(applicants[i], centroid, gap, sqrt);
        }
      }
    }
  }

  /**
    A one-member team at 5 in every field and an applicant at 10 in every
    field: distance 1, fit 0.5, total gap 2, contribution 2, gap-filler
    score 1, final score 0.6.
   */
  lemma ScoreOfWorkedExample(sqrt: real -> real)
    requires SqrtSound(sqrt)
    ensures ScoreApplicants(
              Input([Person("Member", Attributes(5.0, 5.0, 5.0, 5.0))],
                    [Person("Applicant", Attributes(10.0, 10.0, 10.0, 10.0))]),
              sqrt)
            == Success([ScoredApplicant("Applicant", 0.6)])
  {
    var half := Attributes(0.5, 0.5, 0.5, 0.5);
    var team := NormalizeAll([Person("Member", Attributes(5.0, 5.0, 5.0, 5.0))], Divisor);
    var applicants := NormalizeAll([Person("Applicant", Attributes(10.0, 10.0, 10.0, 10.0))], Divisor);
    assert team == [Person("Member", half)];
    assert applicants == [Person("Applicant", Ones)];
    CentroidOfSingleMember(team[0]);
    WorkedExampleGap();
    WorkedExampleApplicant(sqrt);
    assert ScoreEach(applicants, half, GapVector(half), 2.0, sqrt)
        == [ScoredApplicant("Applicant", 0.6)];
  }

  /** The gap side of the worked example: a gap of 0.5 per field, 2 in total, all of it covered. */
  lemma WorkedExampleGap()
    ensures GapVector(Attributes(0.5, 0.5, 0.5, 0.5)) == [0.5, 0.5, 0.5, 0.5]
    ensures TotalGap([0.5, 0.5, 0.5, 0.5]) == 2.0
    ensures ApplicantContribution([0.5, 0.5, 0.5, 0.5], Ones) == 2.0
  {
    SumOfFour([0.5, 0.5, 0.5, 0.5]);
    ContributionByField([0.5, 0.5, 0.5, 0.5], Ones);
  }

  /** The applicant of the worked example is at squared distance 1 from the centroid. */
  lemma WorkedExampleDistanceSquared()
    ensures DistanceSquared(Attributes(0.5, 0.5, 0.5, 0.5), Ones) == 1.0
  {
  }

  /** The applicant of the worked example sits at distance 1 from the centroid. */
  lemma WorkedExampleDistance(sqrt: real -> real)
    requires SqrtSound(sqrt)
    ensures EuclideanDistance(Attributes(0.5, 0.5, 0.5, 0.5), Ones, sqrt) == 1.0
  {
    WorkedExampleDistanceSquared();
    var d := EuclideanDistance(Attributes(0.5, 0.5, 0.5, 0.5), Ones, sqrt);
    assert IsSqrt(1.0, d);
    SqrtOfOne(d);
  }

  /** At distance 1 with all of a total gap of 2 covered, the applicant scores 0.6. */
  lemma WorkedExampleApplicant(sqrt: real -> real)
    requires SqrtSound(sqrt)
    ensures ScoreApplicant(Person("Applicant", Ones), Attributes(0.5, 0.5, 0.5, 0.5),
                           [0.5, 0.5, 0.5, 0.5], 2.0, sqrt)
            == ScoredApplicant("Applicant", 0.6)
  {
    WorkedExampleDistance(sqrt);
    WorkedExampleGap();
    assert AverageFit(1.0) == 0.5;
    assert GapFillerScore(2.0, 2.0) == 1.0;
  }

  /** A team at 10 in every field leaves no gap, and scoring an applicant fails. */
  lemma FullTeamHasNoGap(sqrt: real -> real, applicant: Person)
    ensures ScoreApplicants(
              Input([Person("Member", Attributes(10.0, 10.0, 10.0, 10.0))], [applicant]),
              sqrt)
            == Failure(ZeroTotalGap)
  {
    var team := NormalizeAll([Person("Member", Attributes(10.0, 10.0, 10.0, 10.0))], Divisor);
    assert team == [Person("Member", Ones)];
    CentroidOfSingleMember(team[0]);
  }

  /** Without applicants there is nothing to score, even for an empty team. */
  lemma NoApplicantsNoScores(team: seq<Person>, sqrt: real -> real)
    ensures ScoreApplicants(Input(team, []), sqrt) == Success([])
  {
  }
}
