/**
  The team centroid: the field-wise arithmetic mean of the (normalised)
  attribute records of the team members.
 */
module Centroid {
  import opened AttributeVector
  import opened Sums

  /** The values of one field across the team, in team order. */
  function Column(team: seq<Person>, f: Field): (col: seq<real>)
    ensures |col| == |team|
    ensures forall i :: 0 <= i < |team| ==> col[i] == Get(team[i].attributes, f)
  {
    seq(|team|, i requires 0 <= i < |team| => Get(team[i].attributes, f))
  }

  /** The running record-wise total that the Go program's loop accumulates. */
  function SumAttributes(team: seq<Person>): Attributes
  {
    if |team| == 0 then Zero
    else Add(SumAttributes(team[..|team| - 1]), team[|team| - 1].attributes)
  }

  /** Accumulating whole records sums every field independently. */
  lemma {:induction false} SumAttributesByField(team: seq<Person>, f: Field)
    ensures Get(SumAttributes(team), f) == Sum(Column(team, f))
  {
    if |team| > 0 {
      var n := |team| - 1;
      SumAttributesByField(team[..n], f);
      assert Column(team[..n], f) == Column(team, f)[..n];
    }
  }

  /**
    The centroid of a non-empty team: each field is the sum of that field
    over all members divided by the team size. The Go program divides by the
    member count without checking it; an empty team gives 0/0 there.
   */
  function TeamCentroid(team: seq<Person>): (c: Attributes)
    requires |team| > 0
    ensures forall f: Field :: Get(c, f) == Sum(Column(team, f)) / |team| as real
  {
    var total := SumAttributes(team);
    var count := |team| as real;
    SumAttributesByField(team, Intelligence);
    SumAttributesByField(team, Strength);
    SumAttributesByField(team, Endurance);
    SumAttributesByField(team, SpicyFoodTolerance);
    Attributes(
      total.intelligence / count,
      total.strength / count,
      total.endurance / count,
      total.spicyFoodTolerance / count)
  }

  /** A team whose members all share one record has that record as centroid. */
  lemma CentroidOfUniformTeam(team: seq<Person>, a: Attributes)
    requires |team| > 0
    requires forall i :: 0 <= i < |team| ==> team[i].attributes == a
    ensures TeamCentroid(team) == a
  {
    var c := TeamCentroid(team);
    var n := |team| as real;
    forall f: Field
      ensures Get(c, f) == Get(a, f)
    {
      SumBounds(Column(team, f), Get(a, f), Get(a, f));
      assert Sum(Column(team, f)) == n * Get(a, f);
    }
    Extensionality(c, a);
  }

  /** A one-member team's centroid is that member's record. */
  lemma CentroidOfSingleMember(p: Person)
    ensures TeamCentroid([p]) == p.attributes
  {
    CentroidOfUniformTeam([p], p.attributes);
  }

  /** Members within the unit range keep the centroid within it. */
  lemma CentroidInUnitRange(team: seq<Person>)
    requires |team| > 0
    requires forall i :: 0 <= i < |team| ==> InUnitRange(team[i].attributes)
    ensures InUnitRange(TeamCentroid(team))
  {
    var c := TeamCentroid(team);
    var n := |team| as real;
    forall f: Field
      ensures 0.0 <= Get(c, f) <= 1.0
    {
      var col := Column(team, f);
      SumBounds(col, 0.0, 1.0);
      MeanWithinUnit(Sum(col), n);
    }
  }

  lemma MeanWithinUnit(s: real, n: real)
    requires n > 0.0
    requires n * 0.0 <= s <= n * 1.0
    ensures 0.0 <= s / n <= 1.0
  {
  }

  /** Two members (1,0,0,0) and (0,1,0,0) average to (0.5,0.5,0,0). */
  lemma CentroidOfTwoMembers()
    ensures TeamCentroid([Person("A", Attributes(1.0, 0.0, 0.0, 0.0)),
                          Person("B", Attributes(0.0, 1.0, 0.0, 0.0))])
            == Attributes(0.5, 0.5, 0.0, 0.0)
  {
    var team := [Person("A", Attributes(1.0, 0.0, 0.0, 0.0)),
                 Person("B", Attributes(0.0, 1.0, 0.0, 0.0))];
    assert team[..1][..0] == [];
    assert SumAttributes(team[..1]) == Attributes(1.0, 0.0, 0.0, 0.0);
    assert SumAttributes(team) == Attributes(1.0, 1.0, 0.0, 0.0);
  }
}
