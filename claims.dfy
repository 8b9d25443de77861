/** The expense claim derived on submit: one line per private-car journey,
    then one line per allowance row, and what those lines add up to. */
module Claims {
  import opened Records
  import opened AllowanceRules
  import opened Mileage

  /** The claim line of a private-car journey: dated on the journey, of the
      car claim type, it claims and sanctions the distance times the mileage
      rate and is booked to the trip's project and cost center. */
  function MileageLine(h: TripHeader, s: Settings, j: Journey): (line: ExpenseLine)
    ensures line.amount == line.sanctionedAmount == j.distance * s.mileageAllowance
    ensures line.expenseDate == j.date && line.expenseType == s.expenseClaimTypeCar
    ensures line.description == MileageText(j.distance, s.mileageAllowance, j.origin, j.destination)
    ensures line.project == h.project && line.costCenter == h.costCenter
  {
    var amount := j.distance * s.mileageAllowance;
    ExpenseLine(j.date, s.expenseClaimTypeCar,
                MileageText(j.distance, s.mileageAllowance, j.origin, j.destination),
                amount, amount, h.project, h.costCenter)
  }

  /** One mileage line per journey given, in order. */
  function LinesFor(h: TripHeader, s: Settings, ps: seq<Journey>): (lines: seq<ExpenseLine>)
    ensures |lines| == |ps|
    ensures forall k :: 0 <= k < |ps| ==> lines[k] == MileageLine(h, s, ps[k])
  {
    seq(|ps|, k requires 0 <= k < |ps| => MileageLine(h, s, ps[k]))
  }

  /** The lines of the journey pass: one per private-car journey, in
      journey order. */
  function MileageLines(h: TripHeader, s: Settings, js: seq<Journey>): (lines: seq<ExpenseLine>)
    ensures |lines| == |PrivateJourneys(js)|
    ensures forall k :: 0 <= k < |lines| ==> lines[k] == MileageLine(h, s, PrivateJourneys(js)[k])
  {
    LinesFor(h, s, PrivateJourneys(js))
  }

  /** One more journey adds its mileage line when it is by private car. */
  lemma MileageLinesSnoc(h: TripHeader, s: Settings, js: seq<Journey>, j: Journey)
    ensures MileageLines(h, s, js + [j])
      == MileageLines(h, s, js) + (if IsPrivateCar(j) then [MileageLine(h, s, j)] else [])
  {
    assert (js + [j])[..|js|] == js;
  }

  /** Whether the hotel part goes into allowance descriptions: the region's
      accommodation flag, false when no region is set. */
  function HotelFlag(region: Option<Region>): (flag: bool)
    ensures region.None? ==> !flag
    ensures region.Some? ==> (flag <==> region.value.accommodationFlag)
  {
    region.Some? && region.value.accommodationFlag
  }

  /** The claim line of one allowance row. */
  function AllowanceLine(h: TripHeader, s: Settings, a: Allowance, regionFlag: bool): (line: ExpenseLine)
    ensures line.amount == line.sanctionedAmount == a.amount
    ensures line.project == h.project && line.costCenter == h.costCenter
    ensures line.expenseDate == a.date && line.expenseType == s.expenseClaimType
    ensures line.description.Text? && ParseDescription(line.description.text) == Some(PartsOf(a, regionFlag))
  {
    DescriptionRoundTrip(a, regionFlag);
    ExpenseLine(a.date, s.expenseClaimType, Text(AllowanceDescription(a, regionFlag)),
                a.amount, a.amount, h.project, h.costCenter)
  }

  /** The lines of the allowance pass: one per row, in row order, claiming
      and sanctioning the row's amount. */
  function AllowanceLines(h: TripHeader, s: Settings, rows: seq<Allowance>, regionFlag: bool): (lines: seq<ExpenseLine>)
    ensures |lines| == |rows|
    ensures forall k :: 0 <= k < |rows| ==>
      && lines[k].expenseDate == rows[k].date
      && lines[k].expenseType == s.expenseClaimType
      && lines[k].description == Text(AllowanceDescription(rows[k], regionFlag))
      && lines[k].amount == lines[k].sanctionedAmount == rows[k].amount
      && lines[k].project == h.project && lines[k].costCenter == h.costCenter
  {
    seq(|rows|, k requires 0 <= k < |rows| => AllowanceLine(h, s, rows[k], regionFlag))
  }

  /** All lines of the claim: the journey pass first, then the allowance pass. */
  function ClaimLines(h: TripHeader, s: Settings, js: seq<Journey>, rows: seq<Allowance>, region: Option<Region>): (lines: seq<ExpenseLine>)
    ensures |lines| == |PrivateJourneys(js)| + |rows|
    ensures lines[..|PrivateJourneys(js)|] == MileageLines(h, s, js)
    ensures lines[|PrivateJourneys(js)|..] == AllowanceLines(h, s, rows, HotelFlag(region))
  {
    MileageLines(h, s, js) + AllowanceLines(h, s, rows, HotelFlag(region))
  }

  /** The expense claim with the trip's header and the given lines. */
  function NewClaim(h: TripHeader, today: Date, lines: seq<ExpenseLine>): (claim: ExpenseClaim)
    ensures claim.expenses == lines && claim.postingDate == today && claim.businessTrip == h.name
    ensures claim.employee == h.employee && claim.company == h.company
    ensures claim.project == h.project && claim.costCenter == h.costCenter
  {
    ExpenseClaim(h.employee, h.company, today, h.name, h.project, h.costCenter, lines)
  }

  /** The claimed amounts, added up from the first line on. */
  function LineTotal(lines: seq<ExpenseLine>): (total: real)
  {
    if |lines| == 0 then 0.0 else LineTotal(lines[..|lines| - 1]) + lines[|lines| - 1].amount
  }

  lemma {:induction false} LineTotalAppend(xs: seq<ExpenseLine>, ys: seq<ExpenseLine>)
    ensures LineTotal(xs + ys) == LineTotal(xs) + LineTotal(ys)
    decreases |ys|
  {
    if |ys| > 0 {
      assert (xs + ys)[..|xs + ys| - 1] == xs + ys[..|ys| - 1];
      LineTotalAppend(xs, ys[..|ys| - 1]);
    } else {
      assert xs + ys == xs;
    }
  }

  /** The mileage lines add up to the trip's mileage allowance. */
  lemma MileageLinesTotal(h: TripHeader, s: Settings, js: seq<Journey>)
    ensures LineTotal(MileageLines(h, s, js)) == MileageAllowance(js, s.mileageAllowance)
  {
    var ps := PrivateJourneys(js);
    LinesForTotal(h, s, ps);
    ScaledSumIsProduct(ps, s.mileageAllowance);
    assert MileageLines(h, s, js) == LinesFor(h, s, ps);
    assert MileageAllowance(js, s.mileageAllowance) == DistanceSum(ps) * s.mileageAllowance;
  }

  /** The journeys' amounts at the given rate, added up journey by journey
      as the claim lines add them. */
  function ScaledSum(ps: seq<Journey>, rate: real): (total: real)
  {
    if |ps| == 0 then 0.0 else ScaledSum(ps[..|ps| - 1], rate) + ps[|ps| - 1].distance * rate
  }

  /** Mileage lines add up to the journeys' amounts. */
  lemma {:induction false} LinesForTotal(h: TripHeader, s: Settings, ps: seq<Journey>)
    ensures LineTotal(LinesFor(h, s, ps)) == ScaledSum(ps, s.mileageAllowance)
  {
    if |ps| > 0 {
      var n := |ps| - 1;
      var lines := LinesFor(h, s, ps);
      assert lines[..n] == LinesFor(h, s, ps[..n]);
      LinesForTotal(h, s, ps[..n]);
    }
  }

  /** Adding the amounts journey by journey gives the total distance times
      the rate. */
  lemma {:induction false} ScaledSumIsProduct(ps: seq<Journey>, rate: real)
    ensures ScaledSum(ps, rate) == DistanceSum(ps) * rate
  {
    if |ps| > 0 {
      var n := |ps| - 1;
      ScaledSumIsProduct(ps[..n], rate);
      ScaleStep(ScaledSum(ps, rate), ScaledSum(ps[..n], rate), DistanceSum(ps[..n]), ps[n].distance,
                DistanceSum(ps), rate);
    }
  }

  /** One induction step of a running total of distance times rate. */
  lemma ScaleStep(total: real, totalInit: real, distanceInit: real, d: real, distance: real, rate: real)
    requires total == totalInit + d * rate
    requires totalInit == distanceInit * rate
    requires distance == distanceInit + d
    ensures total == distance * rate
  {
  }

  /** The allowance lines add up to the trip's total allowance. */
  lemma {:induction false} AllowanceLinesTotal(h: TripHeader, s: Settings, rows: seq<Allowance>, regionFlag: bool)
    ensures LineTotal(AllowanceLines(h, s, rows, regionFlag)) == TotalAmount(rows)
  {
    if |rows| > 0 {
      var init := rows[..|rows| - 1];
      var lines := AllowanceLines(h, s, rows, regionFlag);
      assert lines[..|lines| - 1] == AllowanceLines(h, s, init, regionFlag);
      AllowanceLinesTotal(h, s, init, regionFlag);
    }
  }

  /** The claim asks for exactly the two totals that save computes from
      the same rows, journeys and settings: the mileage allowance plus the
      total allowance. */
  lemma ClaimMatchesTotals(h: TripHeader, s: Settings, js: seq<Journey>, rows: seq<Allowance>, region: Option<Region>)
    ensures LineTotal(ClaimLines(h, s, js, rows, region))
      == MileageAllowance(js, s.mileageAllowance) + TotalAmount(rows)
  {
    LineTotalAppend(MileageLines(h, s, js), AllowanceLines(h, s, rows, HotelFlag(region)));
    MileageLinesTotal(h, s, js);
    AllowanceLinesTotal(h, s, rows, HotelFlag(region));
  }

  /** The distance reset leaves the mileage lines as they were, so deriving
      them after the reset would give the same lines. */
  lemma MileageLinesSurviveReset(h: TripHeader, s: Settings, js: seq<Journey>)
    ensures MileageLines(h, s, ResetDistances(js)) == MileageLines(h, s, js)
  {
    ResetKeepsPrivateDistance(js);
  }
}
