/**
  Rescaling of raw attribute values: every field is divided by one divisor
  (10 for the whole pipeline), applied to every team member and applicant
  before any other stage runs.
 */
module Normalizer {
  import opened AttributeVector

  /** Every raw field lies in [0, divisor]. */
  predicate WithinDivisor(a: Attributes, divisor: real)
  {
    forall f: Field :: 0.0 <= Get(a, f) <= divisor
  }

  /**
    One record divided field by field. The Go program updates the record in
    place; here the normalised record is returned. Multiplying a normalised
    field by the divisor gives back the raw field.
   */
  function NormalizeInput(a: Attributes, divisor: real): (r: Attributes)
    requires divisor != 0.0
    ensures forall f: Field :: Get(r, f) * divisor == Get(a, f)
  {
    Attributes(
      a.intelligence / divisor,
      a.strength / divisor,
      a.endurance / divisor,
      a.spicyFoodTolerance / divisor)
  }

  /** Scaling back by the divisor recovers the raw record. */
  lemma NormalizeRoundTrip(a: Attributes, divisor: real)
    requires divisor != 0.0
    ensures Scale(NormalizeInput(a, divisor), divisor) == a
  {
  }

  /**
    For a positive divisor, the normalised record lies in the unit range
    exactly when every raw field lies in [0, divisor].
   */
  lemma NormalizeUnitRangeIff(a: Attributes, divisor: real)
    requires divisor > 0.0
    ensures InUnitRange(NormalizeInput(a, divisor)) <==> WithinDivisor(a, divisor)
  {
  }

  /**
    The normalisation loops over the team and the applicants: every person
    keeps name and position, and only the attributes are normalised.
   */
  function NormalizeAll(people: seq<Person>, divisor: real): (r: seq<Person>)
    requires divisor != 0.0
    ensures |r| == |people|
    ensures forall i :: 0 <= i < |r| ==>
              r[i].name == people[i].name
              && r[i].attributes == NormalizeInput(people[i].attributes, divisor)
  {
    if |people| == 0 then []
    else
      [Person(people[0].name, NormalizeInput(people[0].attributes, divisor))]
      + NormalizeAll(people[1..], divisor)
  }
}
