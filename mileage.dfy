/** Private-car mileage: which journeys are paid per kilometre, how far they
    went, and the distance reset applied to every other journey on submit. */
module Mileage {
  import opened Records

  predicate IsPrivateCar(j: Journey)
  {
    j.mode == PrivateCar
  }

  /** The total distance of a list of journeys, whatever their mode. */
  function DistanceSum(ps: seq<Journey>): (d: real)
    ensures (forall k :: 0 <= k < |ps| ==> ps[k].distance >= 0.0) ==> d >= 0.0
  {
    if |ps| == 0 then 0.0 else DistanceSum(ps[..|ps| - 1]) + ps[|ps| - 1].distance
  }

  /** The private-car journeys, in journey order. */
  function PrivateJourneys(js: seq<Journey>): (ps: seq<Journey>)
    ensures |ps| <= |js|
    ensures forall k :: 0 <= k < |ps| ==> IsPrivateCar(ps[k]) && ps[k] in js
  {
    if |js| == 0 then []
    else
      var last := js[|js| - 1];
      PrivateJourneys(js[..|js| - 1]) + (if IsPrivateCar(last) then [last] else [])
  }

  /** Every private-car journey of the trip is among the private journeys. */
  lemma {:induction false} PrivateJourneysKeepEveryPrivateCar(js: seq<Journey>)
    ensures forall j :: j in js && IsPrivateCar(j) ==> j in PrivateJourneys(js)
  {
    if |js| > 0 {
      var init := js[..|js| - 1];
      PrivateJourneysKeepEveryPrivateCar(init);
      assert js == init + [js[|js| - 1]];
    }
  }

  /** The filter keeps each private-car journey as often as the trip has
      it, and nothing else. */
  lemma {:induction false} PrivateJourneysCounts(js: seq<Journey>)
    ensures forall j :: multiset(PrivateJourneys(js))[j] == if IsPrivateCar(j) then multiset(js)[j] else 0
  {
    if |js| > 0 {
      var init := js[..|js| - 1];
      PrivateJourneysCounts(init);
      assert js == init + [js[|js| - 1]];
    }
  }

  /** The filter keeps journey order: one more journey is appended to the
      private journeys exactly when it is by private car. */
  lemma PrivateJourneysSnoc(js: seq<Journey>, j: Journey)
    ensures PrivateJourneys(js + [j]) == PrivateJourneys(js) + (if IsPrivateCar(j) then [j] else [])
  {
    assert (js + [j])[..|js|] == js;
  }

  /** The total distance of the private-car journeys: never negative when
      no journey has a negative distance, and 0 without a private car. */
  function PrivateDistance(js: seq<Journey>): (d: real)
    ensures (forall k :: 0 <= k < |js| ==> js[k].distance >= 0.0) ==> d >= 0.0
  {
    DistanceSum(PrivateJourneys(js))
  }

  /** The total mileage allowance of the journeys at the given rate per
      kilometre. */
  function MileageAllowance(js: seq<Journey>, rate: real): (m: real)
  {
    PrivateDistance(js) * rate
  }

  /** Without a private-car journey there is no mileage allowance, whatever
      the rate. */
  lemma NoPrivateCarNoMileage(js: seq<Journey>, rate: real)
    requires forall k :: 0 <= k < |js| ==> !IsPrivateCar(js[k])
    ensures MileageAllowance(js, rate) == 0.0
  {
    NoPrivateCarNoDistance(js);
  }

  /** The mileage allowance is never negative for non-negative distances
      and a non-negative rate. */
  lemma MileageAllowanceNonNegative(js: seq<Journey>, rate: real)
    requires forall k :: 0 <= k < |js| ==> js[k].distance >= 0.0
    requires rate >= 0.0
    ensures MileageAllowance(js, rate) >= 0.0
  {
    var d := PrivateDistance(js);
    assert d >= 0.0;
  }

  /** One more journey adds its distance to the private distance when it is
      by private car, and nothing otherwise. */
  lemma PrivateDistanceSnoc(js: seq<Journey>, j: Journey)
    ensures PrivateDistance(js + [j]) == PrivateDistance(js) + (if IsPrivateCar(j) then j.distance else 0.0)
  {
    var ps := PrivateJourneys(js);
    assert (js + [j])[..|js|] == js;
    if IsPrivateCar(j) {
      assert (ps + [j])[..|ps|] == ps;
    } else {
      assert ps + [] == ps;
    }
  }

  /** Journeys of other modes never count: without a private-car journey the
      private distance is 0. */
  lemma {:induction false} NoPrivateCarNoDistance(js: seq<Journey>)
    requires forall k :: 0 <= k < |js| ==> !IsPrivateCar(js[k])
    ensures PrivateDistance(js) == 0.0
  {
    if |js| > 0 {
      var init := js[..|js| - 1];
      NoPrivateCarNoDistance(init);
      assert js == init + [js[|js| - 1]];
      PrivateDistanceSnoc(init, js[|js| - 1]);
    }
  }

  /** One journey after the submit pass: a journey that is not by private
      car loses its distance. */
  function ResetDistance(j: Journey): (k: Journey)
  {
    if IsPrivateCar(j) then j else j.(distance := 0.0)
  }

  /** The journeys after the submit pass: every journey that is not by
      private car has distance 0, private-car journeys are untouched, and
      nothing but the distance changes. */
  function ResetDistances(js: seq<Journey>): (ks: seq<Journey>)
    ensures |ks| == |js|
    ensures forall k :: 0 <= k < |js| && IsPrivateCar(js[k]) ==> ks[k] == js[k]
    ensures forall k :: 0 <= k < |js| && !IsPrivateCar(js[k]) ==> ks[k].distance == 0.0
    ensures forall k :: 0 <= k < |js| ==> ks[k].(distance := js[k].distance) == js[k]
  {
    seq(|js|, k requires 0 <= k < |js| => ResetDistance(js[k]))
  }

  /** Resetting the distances twice is the same as resetting them once. */
  lemma ResetDistancesIdempotent(js: seq<Journey>)
    ensures ResetDistances(ResetDistances(js)) == ResetDistances(js)
  {
    var once := ResetDistances(js);
    var twice := ResetDistances(once);
    forall k | 0 <= k < |js|
      ensures twice[k] == once[k]
    {
      assert once[k] == ResetDistance(js[k]);
    }
  }

  /** The reset does not change the mileage: a trip saved again after submit
      keeps its total mileage allowance. */
  lemma ResetKeepsPrivateDistance(js: seq<Journey>)
    ensures PrivateDistance(ResetDistances(js)) == PrivateDistance(js)
    ensures PrivateJourneys(ResetDistances(js)) == PrivateJourneys(js)
  {
    ResetKeepsPrivateJourneys(js);
  }

  lemma {:induction false} ResetKeepsPrivateJourneys(js: seq<Journey>)
    ensures PrivateJourneys(ResetDistances(js)) == PrivateJourneys(js)
  {
    if |js| > 0 {
      var ks := ResetDistances(js);
      assert ks[..|ks| - 1] == ResetDistances(js[..|js| - 1]);
      ResetKeepsPrivateJourneys(js[..|js| - 1]);
    }
  }
}
