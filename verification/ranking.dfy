/**
 The ranking projection of `get_latest_result`: each finisher of the last
 race becomes a `{position, driver}` record, with the driver's given and
 family names joined by one space.
 */
module Ranking {

  /** One entry of a race's `Results` list: the `position` field and the
      `Driver` record's `givenName` and `familyName`. */
  datatype Finisher = Finisher(position: string, givenName: string, familyName: string)

  /** One race of the upstream "last race" document, with its results. */
  datatype RaceResults = RaceResults(results: seq<Finisher>)

  /** One record of the simplified ranking. */
  datatype Place = Place(position: string, driver: string)

  /** The driver name shown in the ranking: the given name, one space, then
      the family name. */
  function FullName(f: Finisher): (name: string)
    ensures |name| == |f.givenName| + 1 + |f.familyName|
    ensures name[..|f.givenName|] == f.givenName
    ensures name[|f.givenName|] == ' '
    ensures name[|f.givenName| + 1..] == f.familyName
  {
    f.givenName + " " + f.familyName
  }

  /** The record made for one finisher. */
  function PlaceOf(f: Finisher): Place {
    Place(f.position, FullName(f))
  }

  /** The list comprehension over `results`: one record per finisher, in
      the same order, each carrying that finisher's position and full name. */
  function Project(results: seq<Finisher>): (ranking: seq<Place>)
    ensures |ranking| == |results|
    ensures forall i :: 0 <= i < |results| ==> ranking[i].position == results[i].position
    ensures forall i :: 0 <= i < |results| ==> ranking[i].driver == results[i].givenName + " " + results[i].familyName
    decreases |results|
  {
    if |results| == 0 then []
    else [PlaceOf(results[0])] + Project(results[1..])
  }

  /** The projection works finisher by finisher: projecting a concatenation
      is concatenating the projections, so no record moves. */
  lemma {:induction false} ProjectAppend(a: seq<Finisher>, b: seq<Finisher>)
    ensures Project(a + b) == Project(a) + Project(b)
    decreases |a|
  {
    if |a| > 0 {
      assert (a + b)[0] == a[0];
      assert (a + b)[1..] == a[1..] + b;
      ProjectAppend(a[1..], b);
    } else {
      assert a + b == b;
    }
  }
}
