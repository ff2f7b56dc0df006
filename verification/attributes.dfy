/**
  The four-field attribute record shared by every stage of the scoring
  pipeline, the people that own one, and the fixed field order in which the
  positional stages (gap vector, contribution) read it.
 */
module AttributeVector {

  /** One person's measured traits (a Go float64 is modelled as an exact real). */
  datatype Attributes = Attributes(
    intelligence: real,
    strength: real,
    endurance: real,
    spicyFoodTolerance: real)

  /** The attribute names, in the order in which the record declares them. */
  datatype Field = Intelligence | Strength | Endurance | SpicyFoodTolerance

  /** A team member or an applicant. */
  datatype Person = Person(name: string, attributes: Attributes)

  /** The sole output entity: an applicant's name and final score. */
  datatype ScoredApplicant = ScoredApplicant(name: string, score: real)

  /** Number of fields of `Attributes`; the Go program obtains it by reflection. */
  const Dimensions: nat := 4

  /** Reads one named field. */
  function Get(a: Attributes, f: Field): real
  {
    match f
    case Intelligence => a.intelligence
    case Strength => a.strength
    case Endurance => a.endurance
    case SpicyFoodTolerance => a.spicyFoodTolerance
  }

  /** The position of a field in every positional vector of the pipeline. */
  function Index(f: Field): (i: nat)
    ensures i < Dimensions
  {
    match f
    case Intelligence => 0
    case Strength => 1
    case Endurance => 2
    case SpicyFoodTolerance => 3
  }

  /** The field stored at a position; the inverse of `Index`. */
  function FieldAt(i: nat): (f: Field)
    requires i < Dimensions
    ensures Index(f) == i
  {
    if i == 0 then Intelligence
    else if i == 1 then Strength
    else if i == 2 then Endurance
    else SpicyFoodTolerance
  }

  /** Positions and fields are in one-to-one correspondence. */
  lemma IndexIsBijective(f: Field, g: Field)
    ensures FieldAt(Index(f)) == f
    ensures Index(f) == Index(g) <==> f == g
  {
  }

  /** The record as a positional vector, in declaration order. */
  function AsSeq(a: Attributes): (s: seq<real>)
    ensures |s| == Dimensions
    ensures forall f: Field :: s[Index(f)] == Get(a, f)
  {
    [a.intelligence, a.strength, a.endurance, a.spicyFoodTolerance]
  }

  /** Two records that agree on every field are equal. */
  lemma Extensionality(a: Attributes, b: Attributes)
    requires forall f: Field :: Get(a, f) == Get(b, f)
    ensures a == b
  {
    assert Get(a, Intelligence) == Get(b, Intelligence);
    assert Get(a, Strength) == Get(b, Strength);
    assert Get(a, Endurance) == Get(b, Endurance);
    assert Get(a, SpicyFoodTolerance) == Get(b, SpicyFoodTolerance);
  }

  const Zero: Attributes := Attributes(0.0, 0.0, 0.0, 0.0)

  /** The "perfect" profile against which the team's gaps are measured. */
  const Ones: Attributes := Attributes(1.0, 1.0, 1.0, 1.0)

  /** Field-wise sum. */
  function Add(a: Attributes, b: Attributes): (r: Attributes)
    ensures forall f: Field :: Get(r, f) == Get(a, f) + Get(b, f)
  {
    Attributes(
      a.intelligence + b.intelligence,
      a.strength + b.strength,
      a.endurance + b.endurance,
      a.spicyFoodTolerance + b.spicyFoodTolerance)
  }

  /** Field-wise multiplication by a scalar. */
  function Scale(a: Attributes, k: real): (r: Attributes)
    ensures forall f: Field :: Get(r, f) == k * Get(a, f)
  {
    Attributes(
      k * a.intelligence,
      k * a.strength,
      k * a.endurance,
      k * a.spicyFoodTolerance)
  }

  /** Every field lies in [0, 1], the range normalisation aims for. */
  predicate InUnitRange(a: Attributes)
  {
    forall f: Field :: 0.0 <= Get(a, f) <= 1.0
  }

  predicate NonNegative(a: Attributes)
  {
    forall f: Field :: 0.0 <= Get(a, f)
  }
}
