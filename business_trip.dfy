/** The "Business Trip" document: its child tables are updated in place on
    save, and submitting it derives an expense claim, resets distances and
    routes the remaining bills to purchase invoices. */
module Trips {
  import opened Records
  import opened AllowanceRules
  import opened Mileage
  import opened Claims
  import opened Invoicing

  datatype Status = Draft | Submitted

  /** The allowance rows' amounts added up, as the save pass does. */
  method SumAmounts(rows: array<Allowance>) returns (total: real)
    ensures total == TotalAmount(rows[..])
  {
    total := 0.0;
    var i := 0;
    while i < rows.Length
      invariant 0 <= i <= rows.Length
      invariant total == TotalAmount(rows[..i])
    {
      assert rows[..i + 1][..i] == rows[..i];
      total := total + rows[i].amount;
      i := i + 1;
    }
    assert rows[..rows.Length] == rows[..];
  }

  /** The distance of the private-car journeys added up, as the save pass does. */
  method SumPrivateDistance(journeys: array<Journey>) returns (distance: real)
    ensures distance == PrivateDistance(journeys[..])
  {
    distance := 0.0;
    var i := 0;
    while i < journeys.Length
      invariant 0 <= i <= journeys.Length
      invariant distance == PrivateDistance(journeys[..i])
    {
      assert journeys[..i + 1] == journeys[..i] + [journeys[i]];
      PrivateDistanceSnoc(journeys[..i], journeys[i]);
      if journeys[i].mode == PrivateCar {
        distance := distance + journeys[i].distance;
      }
      i := i + 1;
    }
    assert journeys[..journeys.Length] == journeys[..];
  }

  /** The allowance pass of the claim: one line per row, in row order. */
  method AllowancePass(h: TripHeader, s: Settings, rows: array<Allowance>, flag: bool)
    returns (lines: seq<ExpenseLine>)
    ensures lines == AllowanceLines(h, s, rows[..], flag)
  {
    lines := [];
    var i := 0;
    while i < rows.Length
      invariant 0 <= i <= rows.Length
      invariant lines == AllowanceLines(h, s, rows[..i], flag)
    {
      assert AllowanceLines(h, s, rows[..i + 1], flag)
        == AllowanceLines(h, s, rows[..i], flag) + [AllowanceLine(h, s, rows[i], flag)];
      lines := lines + [AllowanceLine(h, s, rows[i], flag)];
      i := i + 1;
    }
    assert rows[..rows.Length] == rows[..];
  }

  /** The invoice pass over the journeys: every journey not by private car
      goes to CreateInvoice with its mode's triple. */
  method JourneyInvoicePass(h: TripHeader, today: Date, s: Settings, journeys: array<Journey>)
    returns (effects: seq<Effect>)
    ensures effects == JourneyEffects(h, today, s, journeys[..])
  {
    effects := [];
    var i := 0;
    while i < journeys.Length
      invariant 0 <= i <= journeys.Length
      invariant effects == JourneyEffects(h, today, s, journeys[..i])
    {
      assert journeys[..i + 1][..i] == journeys[..i];
      if journeys[i].mode != PrivateCar {
        var t := ModeStandards(s, journeys[i].mode);
        effects := effects + CreateInvoice(h, today, JourneyTopic(journeys[i]), t);
      }
      i := i + 1;
    }
    assert journeys[..journeys.Length] == journeys[..];
  }

  /** The invoice pass over the stays, all with the accommodation triple. */
  method AccommodationInvoicePass(h: TripHeader, today: Date, s: Settings, stays: seq<Accommodation>)
    returns (effects: seq<Effect>)
    ensures effects == AccommodationEffects(h, today, s, stays)
  {
    effects := [];
    var i := 0;
    while i < |stays|
      invariant 0 <= i <= |stays|
      invariant effects == AccommodationEffects(h, today, s, stays[..i])
    {
      assert stays[..i + 1][..i] == stays[..i];
      effects := effects + CreateInvoice(h, today, AccommodationTopic(stays[i]), s.accommodation);
      i := i + 1;
    }
    assert stays[..|stays|] == stays;
  }

  /** The date check that runs before the save pass: the trip may not end
      before it starts, so its length in days is not negative. */
  function DatesInOrder(fromDate: Date, toDate: Date): (ok: bool)
    ensures ok <==> toDate - fromDate >= 0
  {
    fromDate <= toDate
  }

  class BusinessTrip {
    const header: TripHeader
    var fromDate: Date
    var toDate: Date
    var region: Option<Region>
    const allowances: array<Allowance>
    const journeys: array<Journey>
    const accommodations: seq<Accommodation>
    var totalAllowance: real
    var totalMileageAllowance: real
    var status: Status

    /** A new draft trip with the given rows; the totals are computed on save. */
    constructor (header: TripHeader, fromDate: Date, toDate: Date, region: Option<Region>,
                 rows: seq<Allowance>, js: seq<Journey>, stays: seq<Accommodation>)
      ensures this.header == header && this.fromDate == fromDate && this.toDate == toDate
      ensures this.region == region && accommodations == stays
      ensures fresh(allowances) && allowances[..] == rows
      ensures fresh(journeys) && journeys[..] == js
      ensures totalAllowance == 0.0 && totalMileageAllowance == 0.0 && status == Draft
    {
      this.header := header;
      this.fromDate := fromDate;
      this.toDate := toDate;
      this.region := region;
      allowances := new Allowance[|rows|](k requires 0 <= k < |rows| => rows[k]);
      journeys := new Journey[|js|](k requires 0 <= k < |js| => js[k]);
      accommodations := stays;
      totalAllowance := 0.0;
      totalMileageAllowance := 0.0;
      status := Draft;
    }

    /** Without a region the rows are left alone; with one, every row gets
        the amount its region rates and provided meals give. */
    method SetRegionalAmount()
      modifies allowances
      ensures region.None? ==> allowances[..] == old(allowances[..])
      ensures region.Some? ==> allowances[..] == WithRegionalAmounts(old(allowances[..]), region.value)
    {
      if region.None? {
        return;
      }
      var r := region.value;
      var i := 0;
      while i < allowances.Length
        invariant 0 <= i <= allowances.Length
        invariant forall k :: 0 <= k < i ==>
          allowances[k] == old(allowances[k]).(amount := RegionalAmount(old(allowances[k]), r))
        invariant forall k :: i <= k < allowances.Length ==> allowances[k] == old(allowances[k])
      {
        allowances[i] := allowances[i].(amount := RegionalAmount(allowances[i], r));
        i := i + 1;
      }
    }

    /** Whole-day rows get the full day's time bounds; other rows keep theirs. */
    method SetWholeDayTime()
      modifies allowances
      ensures allowances[..] == WithWholeDayTimes(old(allowances[..]))
    {
      var i := 0;
      while i < allowances.Length
        invariant 0 <= i <= allowances.Length
        invariant forall k :: 0 <= k < i ==> allowances[k] == WithWholeDayTime(old(allowances[k]))
        invariant forall k :: i <= k < allowances.Length ==> allowances[k] == old(allowances[k])
      {
        if allowances[i].wholeDay {
          allowances[i] := allowances[i].(fromTime := DayStart, toTime := DayEnd);
        }
        i := i + 1;
      }
    }

    method CalculateTotal()
      modifies this`totalAllowance
      ensures totalAllowance == TotalAmount(allowances[..])
    {
      totalAllowance := SumAmounts(allowances);
    }

    /** The private-car distance times the rate per kilometre of the settings. */
    method CalculateTotalMileageAllowance(rate: real)
      modifies this`totalMileageAllowance
      ensures totalMileageAllowance == MileageAllowance(journeys[..], rate)
    {
      var distance := SumPrivateDistance(journeys);
      totalMileageAllowance := distance * rate;
    }

    /** The save pass, in the order the document runs it: regional amounts,
        whole-day times, the allowance total, the mileage total. The stored
        totals then describe the rows as saved. */
    method BeforeSave(settings: Settings)
      modifies allowances, this`totalAllowance, this`totalMileageAllowance
      ensures allowances[..] == SavedAllowances(old(allowances[..]), region)
      ensures totalAllowance == TotalAmount(allowances[..])
      ensures region.Some? ==> totalAllowance >= 0.0
      ensures totalMileageAllowance == MileageAllowance(journeys[..], settings.mileageAllowance)
    {
      SetRegionalAmount();
      SetWholeDayTime();
      CalculateTotal();
      CalculateTotalMileageAllowance(settings.mileageAllowance);
      if region.Some? {
        SavedTotalIsNonNegative(old(allowances[..]), region.value);
      }
    }

    /** Saving: a submitted trip runs neither the date check nor the save
        pass, so it is left as it was; a draft whose dates are out of order is
        refused and left as it was; otherwise the save pass runs. */
    method Save(settings: Settings) returns (saved: bool)
      modifies allowances, this`totalAllowance, this`totalMileageAllowance
      ensures saved == (status == Draft && DatesInOrder(fromDate, toDate))
      ensures !saved ==>
        && allowances[..] == old(allowances[..])
        && totalAllowance == old(totalAllowance)
        && totalMileageAllowance == old(totalMileageAllowance)
      ensures saved ==>
        && allowances[..] == SavedAllowances(old(allowances[..]), region)
        && totalAllowance == TotalAmount(allowances[..])
        && totalMileageAllowance == MileageAllowance(journeys[..], settings.mileageAllowance)
    {
      if status != Draft || fromDate > toDate {
        return false;
      }
      BeforeSave(settings);
      saved := true;
    }

    method BeforeSubmit()
      modifies this`status
      ensures status == Submitted
    {
      status := Submitted;
    }

    /** Submitting: when the trip has allowance rows and the HR app is
        installed, an expense claim is built from the private-car journeys
        and the allowance rows, every other journey loses its distance, and
        the other journeys and the stays are routed to purchase invoices.
        Otherwise nothing happens. */
    method OnSubmit(hrmsInstalled: bool, settings: Settings, today: Date)
      returns (claim: Option<ExpenseClaim>, effects: seq<Effect>)
      modifies journeys
      ensures allowances.Length == 0 || !hrmsInstalled ==>
        claim == None && effects == [] && journeys[..] == old(journeys[..])
      ensures allowances.Length > 0 && hrmsInstalled ==>
        && journeys[..] == ResetDistances(old(journeys[..]))
        && claim == Some(NewClaim(header, today,
             ClaimLines(header, settings, old(journeys[..]), allowances[..], region)))
        && effects == JourneyEffects(header, today, settings, old(journeys[..]))
                      + AccommodationEffects(header, today, settings, accommodations)
    {
      if allowances.Length == 0 || !hrmsInstalled {
        return None, [];
      }
      ghost var original := journeys[..];
      var mileage := ClaimJourneyPass(settings);
      var rest := AllowancePass(header, settings, allowances, HotelFlag(region));
      claim := Some(NewClaim(header, today, mileage + rest));
      var journeyEffects := JourneyInvoicePass(header, today, settings, journeys);
      JourneyEffectsIgnoreDistance(header, today, settings, original);
      var stayEffects := AccommodationInvoicePass(header, today, settings, accommodations);
      effects := journeyEffects + stayEffects;
    }

    /** The journey pass of the claim: a mileage line for every private-car
        journey, and every other journey loses its distance. */
    method ClaimJourneyPass(settings: Settings) returns (lines: seq<ExpenseLine>)
      modifies journeys
      ensures lines == MileageLines(header, settings, old(journeys[..]))
      ensures journeys[..] == ResetDistances(old(journeys[..]))
    {
      ghost var original := journeys[..];
      lines := [];
      var i := 0;
      while i < journeys.Length
        invariant 0 <= i <= journeys.Length
        invariant lines == MileageLines(header, settings, original[..i])
        invariant forall k :: 0 <= k < i ==> journeys[k] == ResetDistance(original[k])
        invariant forall k :: i <= k < journeys.Length ==> journeys[k] == original[k]
      {
        assert original[..i + 1] == original[..i] + [original[i]];
        MileageLinesSnoc(header, settings, original[..i], original[i]);
        if journeys[i].mode == PrivateCar {
          lines := lines + [MileageLine(header, settings, journeys[i])];
        } else {
          journeys[i] := journeys[i].(distance := 0.0);
        }
        i := i + 1;
      }
      assert original[..journeys.Length] == original;
    }

    /** The whole submit: the date check runs first, and a trip that ends
        before it starts stays a draft with nothing derived; otherwise the
        status changes, then the claim and invoices are derived. Only a draft
        can be submitted. */
    method Submit(hrmsInstalled: bool, settings: Settings, today: Date)
      returns (claim: Option<ExpenseClaim>, effects: seq<Effect>)
      requires status == Draft
      modifies this`status, journeys
      ensures !DatesInOrder(fromDate, toDate) ==>
        && status == Draft && claim == None && effects == []
        && journeys[..] == old(journeys[..])
      ensures DatesInOrder(fromDate, toDate) ==> status == Submitted
      ensures DatesInOrder(fromDate, toDate) && allowances.Length > 0 && hrmsInstalled ==>
        && journeys[..] == ResetDistances(old(journeys[..]))
        && claim == Some(NewClaim(header, today,
             ClaimLines(header, settings, old(journeys[..]), allowances[..], region)))
        && effects == JourneyEffects(header, today, settings, old(journeys[..]))
                      + AccommodationEffects(header, today, settings, accommodations)
        && LineTotal(claim.value.expenses)
           == MileageAllowance(old(journeys[..]), settings.mileageAllowance) + TotalAmount(allowances[..])
      ensures (&& DatesInOrder(fromDate, toDate) && allowances.Length > 0 && hrmsInstalled
               && totalMileageAllowance == MileageAllowance(old(journeys[..]), settings.mileageAllowance)
               && totalAllowance == TotalAmount(allowances[..]))
        ==> claim.Some? && LineTotal(claim.value.expenses) == totalMileageAllowance + totalAllowance
      ensures allowances.Length == 0 || !hrmsInstalled ==>
        claim == None && effects == [] && journeys[..] == old(journeys[..])
    {
      if fromDate > toDate {
        return None, [];
      }
      BeforeSubmit();
      claim, effects := OnSubmit(hrmsInstalled, settings, today);
      if allowances.Length > 0 && hrmsInstalled {
        ClaimMatchesTotals(header, settings, old(journeys[..]), allowances[..], region);
      }
    }
  }
}
