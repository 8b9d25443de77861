/** The per-diem rules applied to the allowance rows when a trip is saved:
    the regional amount of a row, the whole-day time bounds and the total. */
module AllowanceRules {
  import opened Records

  /** Shares of the whole-day rate withheld for a provided meal. */
  const BreakfastShare: real := 0.2
  const LunchShare: real := 0.4
  const DinnerShare: real := 0.4

  /** The amount floored at zero. */
  function AtLeastZero(x: real): (y: real)
  {
    if x < 0.0 then 0.0 else x
  }

  /** The part of the whole-day rate withheld for the meals provided on the
      row's day; the three deductions stack. */
  function MealShare(a: Allowance): (share: real)
    ensures 0.0 <= share <= 1.0
    ensures share == 0.0 <==> !a.breakfastProvided && !a.lunchProvided && !a.dinnerProvided
    ensures share == 1.0 <==> a.breakfastProvided && a.lunchProvided && a.dinnerProvided
  {
    (if a.breakfastProvided then BreakfastShare else 0.0)
    + (if a.lunchProvided then LunchShare else 0.0)
    + (if a.dinnerProvided then DinnerShare else 0.0)
  }

  /** The rate a row starts from: whole-day or arrival/departure. */
  function BaseRate(a: Allowance, r: Region): (rate: real)
  {
    if a.wholeDay then r.wholeDayRate else r.arrivalOrDepartureRate
  }

  /** The amount of one allowance row, computed step by step as the save
      hook does: start from the base rate, deduct each provided meal's share
      of the WHOLE-DAY rate, add the accommodation rate when no
      accommodation was provided, and floor at zero. The contract states the
      same amount in closed form. */
  function RegionalAmount(a: Allowance, r: Region): (amount: real)
    ensures amount >= 0.0
    ensures amount == AtLeastZero(
      BaseRate(a, r) - MealShare(a) * r.wholeDayRate
      + (if a.accommodationProvided then 0.0 else r.accommodationRate))
  {
    var start := if a.wholeDay then r.wholeDayRate else r.arrivalOrDepartureRate;
    var afterBreakfast := if a.breakfastProvided then start - r.wholeDayRate * BreakfastShare else start;
    var afterLunch := if a.lunchProvided then afterBreakfast - r.wholeDayRate * LunchShare else afterBreakfast;
    var afterDinner := if a.dinnerProvided then afterLunch - r.wholeDayRate * DinnerShare else afterLunch;
    var withHotel := if !a.accommodationProvided then afterDinner + r.accommodationRate else afterDinner;
    AtLeastZero(withHotel)
  }

  /** A provided meal never raises the amount while the whole-day rate is
      not negative. */
  lemma ProvidedMealNeverRaisesAmount(a: Allowance, r: Region)
    requires r.wholeDayRate >= 0.0
    ensures RegionalAmount(a.(breakfastProvided := true), r) <= RegionalAmount(a, r)
    ensures RegionalAmount(a.(lunchProvided := true), r) <= RegionalAmount(a, r)
    ensures RegionalAmount(a.(dinnerProvided := true), r) <= RegionalAmount(a, r)
  {
  }

  /** A whole day with every meal and the accommodation provided is worth
      nothing, whatever the region's rates. */
  lemma FullyProvidedDayIsWorthNothing(a: Allowance, r: Region)
    requires a.wholeDay && a.breakfastProvided && a.lunchProvided && a.dinnerProvided
    requires a.accommodationProvided
    ensures RegionalAmount(a, r) == 0.0
  {
  }

  /** A whole day with breakfast provided and no accommodation, in a region
      paying 30 per whole day and 20 for accommodation, is worth 30 - 6 + 20. */
  lemma WholeDayWithBreakfastExample(a: Allowance, r: Region)
    requires a.wholeDay && a.breakfastProvided && !a.lunchProvided && !a.dinnerProvided
    requires !a.accommodationProvided
    requires r.wholeDayRate == 30.0 && r.accommodationRate == 20.0
    ensures RegionalAmount(a, r) == 44.0
  {
  }

  /** The rows after the regional amounts are set: only the amounts change. */
  function WithRegionalAmounts(s: seq<Allowance>, r: Region): (t: seq<Allowance>)
    ensures |t| == |s|
    ensures forall k :: 0 <= k < |s| ==> t[k].amount == RegionalAmount(s[k], r)
    ensures forall k :: 0 <= k < |s| ==> t[k].(amount := s[k].amount) == s[k]
  {
    seq(|s|, k requires 0 <= k < |s| => s[k].(amount := RegionalAmount(s[k], r)))
  }

  /** One row after the whole-day time bounds are set. */
  function WithWholeDayTime(a: Allowance): (b: Allowance)
  {
    if a.wholeDay then a.(fromTime := DayStart, toTime := DayEnd) else a
  }

  /** The rows after the whole-day time bounds are set: every whole-day row
      runs from 00:00 to 23:59, other rows are untouched, and nothing but the
      times of whole-day rows changes. */
  function WithWholeDayTimes(s: seq<Allowance>): (t: seq<Allowance>)
    ensures |t| == |s|
    ensures forall k :: 0 <= k < |s| && s[k].wholeDay ==>
      t[k].fromTime == DayStart && t[k].toTime == DayEnd
    ensures forall k :: 0 <= k < |s| && !s[k].wholeDay ==> t[k] == s[k]
    ensures forall k :: 0 <= k < |s| ==> t[k].(fromTime := s[k].fromTime, toTime := s[k].toTime) == s[k]
  {
    seq(|s|, k requires 0 <= k < |s| => WithWholeDayTime(s[k]))
  }

  /** Setting the whole-day times twice is the same as setting them once. */
  lemma WholeDayTimesIdempotent(s: seq<Allowance>)
    ensures WithWholeDayTimes(WithWholeDayTimes(s)) == WithWholeDayTimes(s)
  {
    var once := WithWholeDayTimes(s);
    var twice := WithWholeDayTimes(once);
    forall k | 0 <= k < |s|
      ensures twice[k] == once[k]
    {
      assert once[k] == WithWholeDayTime(s[k]);
    }
  }

  /** The amounts do not depend on the times and the times not on the
      amounts, so the two save steps may run in either order. */
  lemma SaveStepsCommute(s: seq<Allowance>, r: Region)
    ensures WithWholeDayTimes(WithRegionalAmounts(s, r)) == WithRegionalAmounts(WithWholeDayTimes(s), r)
  {
    var left := WithWholeDayTimes(WithRegionalAmounts(s, r));
    var right := WithRegionalAmounts(WithWholeDayTimes(s), r);
    forall k | 0 <= k < |s|
      ensures left[k] == right[k]
    {
      assert RegionalAmount(WithWholeDayTime(s[k]), r) == RegionalAmount(s[k], r);
    }
  }

  /** The rows as the save hook leaves them: amounts first (when a region is
      set), then the whole-day times. */
  function SavedAllowances(s: seq<Allowance>, region: Option<Region>): (t: seq<Allowance>)
    ensures |t| == |s|
    ensures forall k :: 0 <= k < |s| ==>
      t[k].amount == (if region.Some? then RegionalAmount(s[k], region.value) else s[k].amount)
    ensures forall k :: 0 <= k < |s| && s[k].wholeDay ==> t[k].fromTime == DayStart && t[k].toTime == DayEnd
    ensures forall k :: 0 <= k < |s| ==>
      t[k].(amount := s[k].amount, fromTime := s[k].fromTime, toTime := s[k].toTime) == s[k]
    ensures forall k :: 0 <= k < |s| && !s[k].wholeDay ==> t[k].fromTime == s[k].fromTime && t[k].toTime == s[k].toTime
  {
    match region
    case None => WithWholeDayTimes(s)
    case Some(r) => WithWholeDayTimes(WithRegionalAmounts(s, r))
  }

  /** The rows' amounts, added up from the first row on. */
  function TotalAmount(s: seq<Allowance>): (total: real)
    ensures (forall k :: 0 <= k < |s| ==> s[k].amount >= 0.0) ==> total >= 0.0
  {
    if |s| == 0 then 0.0 else TotalAmount(s[..|s| - 1]) + s[|s| - 1].amount
  }

  /** The total of two lists of rows is the sum of their totals. */
  lemma {:induction false} TotalAmountAppend(s: seq<Allowance>, t: seq<Allowance>)
    ensures TotalAmount(s + t) == TotalAmount(s) + TotalAmount(t)
    decreases |t|
  {
    if |t| > 0 {
      assert (s + t)[..|s + t| - 1] == s + t[..|t| - 1];
      TotalAmountAppend(s, t[..|t| - 1]);
    } else {
      assert s + t == s;
    }
  }

  /** Two lists of rows with the same amounts, row by row, have the same total. */
  lemma {:induction false} TotalAmountOnlyReadsAmounts(s: seq<Allowance>, t: seq<Allowance>)
    requires |s| == |t|
    requires forall k :: 0 <= k < |s| ==> s[k].amount == t[k].amount
    ensures TotalAmount(s) == TotalAmount(t)
  {
    if |s| > 0 {
      TotalAmountOnlyReadsAmounts(s[..|s| - 1], t[..|t| - 1]);
    }
  }

  /** Once a region is set, the saved total allowance is never negative. */
  lemma SavedTotalIsNonNegative(s: seq<Allowance>, r: Region)
    ensures TotalAmount(SavedAllowances(s, Some(r))) >= 0.0
  {
    var saved := SavedAllowances(s, Some(r));
    forall k | 0 <= k < |saved|
      ensures saved[k].amount >= 0.0
    {
      assert saved[k].amount == WithRegionalAmounts(s, r)[k].amount;
    }
  }

  // Allowance descriptions on the expense claim

  const FullDayLabel: string := "Full Day"
  const ArrivalDepartureLabel: string := "Arrival/Departure"
  const HotelSuffix: string := ", zzgl. Hotel"
  const BreakfastSuffix: string := ", abzügl. Frühstück"
  const LunchSuffix: string := ", abzügl. Mittagessen"
  const DinnerSuffix: string := ", abzügl. Abendessen"

  /** Which parts a description is made of. */
  datatype DescriptionParts = DescriptionParts(
    wholeDay: bool, hotel: bool, breakfast: bool, lunch: bool, dinner: bool)

  /** The parts an allowance row's description should show: the hotel part
      only when no accommodation was provided and the region's accommodation
      flag is set. */
  function PartsOf(a: Allowance, regionFlag: bool): (parts: DescriptionParts)
  {
    DescriptionParts(a.wholeDay, !a.accommodationProvided && regionFlag,
                     a.breakfastProvided, a.lunchProvided, a.dinnerProvided)
  }

  /** `piece` when `present`, nothing otherwise. */
  function Part(present: bool, piece: string): (text: string)
  {
    if present then piece else ""
  }

  /** The description of an allowance row, built by concatenation in the
      fixed order label, hotel, breakfast, lunch, dinner. */
  function AllowanceDescription(a: Allowance, regionFlag: bool): (d: string)
    ensures a.wholeDay ==> FullDayLabel <= d
    ensures !a.wholeDay ==> ArrivalDepartureLabel <= d
  {
    var opening := if a.wholeDay then FullDayLabel else ArrivalDepartureLabel;
    var withHotel := opening + Part(!a.accommodationProvided && regionFlag, HotelSuffix);
    var withBreakfast := withHotel + Part(a.breakfastProvided, BreakfastSuffix);
    var withLunch := withBreakfast + Part(a.lunchProvided, LunchSuffix);
    withLunch + Part(a.dinnerProvided, DinnerSuffix)
  }

  /** Removes `piece` from the front of `s` if it is there. */
  function TakePrefix(s: string, piece: string): (taken: (bool, string))
  {
    if piece <= s then (true, s[|piece|..]) else (false, s)
  }

  /** Reads the parts back from a description; None when it is not one. */
  function ParseDescription(d: string): (parts: Option<DescriptionParts>)
  {
    if FullDayLabel <= d then ParseSuffixes(true, d[|FullDayLabel|..])
    else if ArrivalDepartureLabel <= d then ParseSuffixes(false, d[|ArrivalDepartureLabel|..])
    else None
  }

  function ParseSuffixes(wholeDay: bool, s: string): (parts: Option<DescriptionParts>)
  {
    var (hotel, s1) := TakePrefix(s, HotelSuffix);
    var (breakfast, s2) := TakePrefix(s1, BreakfastSuffix);
    var (lunch, s3) := TakePrefix(s2, LunchSuffix);
    var (dinner, s4) := TakePrefix(s3, DinnerSuffix);
    if s4 == [] then Some(DescriptionParts(wholeDay, hotel, breakfast, lunch, dinner)) else None
  }

  /** Taking an optional piece off the front of a string: the piece comes
      off exactly when it is there, provided what follows it is empty or
      differs from the piece at some position `k`. */
  lemma TakePart(present: bool, piece: string, rest: string, k: nat)
    requires |piece| > 0
    requires rest == [] || (k < |piece| && k < |rest| && piece[k] != rest[k])
    ensures TakePrefix(Part(present, piece) + rest, piece) == (present, rest)
  {
    if present {
      assert (piece + rest)[..|piece|] == piece;
      assert (piece + rest)[|piece|..] == rest;
    } else {
      assert Part(present, piece) + rest == rest;
      if rest != [] {
        assert !(piece <= rest) by { assert rest[k] != piece[k]; }
      }
    }
  }

  /** The parts after the hotel suffix, dinner last. */
  function MealParts(p: DescriptionParts): string
  {
    Part(p.breakfast, BreakfastSuffix) + (Part(p.lunch, LunchSuffix) + Part(p.dinner, DinnerSuffix))
  }

  /** The suffixes of a description, when taken off in order, give back the parts. */
  lemma SuffixesRoundTrip(p: DescriptionParts)
    ensures ParseSuffixes(p.wholeDay, Part(p.hotel, HotelSuffix) + MealParts(p)) == Some(p)
  {
    var s3 := Part(p.dinner, DinnerSuffix);
    var s2 := Part(p.lunch, LunchSuffix) + s3;
    var s1 := Part(p.breakfast, BreakfastSuffix) + s2;
    assert s1 == MealParts(p);
    // every meal suffix starts with ", abzügl. " and differs from the others at position 10
    assert s3 == [] || s3[10] == 'A';
    assert s2 == [] || (s2[2] == 'a' && s2[10] != 'F');
    assert s1 == [] || s1[2] == 'a';
    TakePart(p.hotel, HotelSuffix, s1, 2);
    TakePart(p.breakfast, BreakfastSuffix, s2, 10);
    TakePart(p.lunch, LunchSuffix, s3, 10);
    TakePart(p.dinner, DinnerSuffix, [], 0);
    assert s3 + [] == s3;
  }

  /** The description is the opening label followed by the optional parts. */
  lemma DescriptionIsLabelAndParts(a: Allowance, regionFlag: bool)
    ensures AllowanceDescription(a, regionFlag)
      == (if a.wholeDay then FullDayLabel else ArrivalDepartureLabel)
         + (Part(!a.accommodationProvided && regionFlag, HotelSuffix) + MealParts(PartsOf(a, regionFlag)))
  {
    var opening := if a.wholeDay then FullDayLabel else ArrivalDepartureLabel;
    var h := Part(!a.accommodationProvided && regionFlag, HotelSuffix);
    var b := Part(a.breakfastProvided, BreakfastSuffix);
    var l := Part(a.lunchProvided, LunchSuffix);
    var d := Part(a.dinnerProvided, DinnerSuffix);
    assert AllowanceDescription(a, regionFlag) == (((opening + h) + b) + l) + d;
    RegroupParts(opening, h, b, l, d);
  }

  lemma RegroupParts(s0: string, s1: string, s2: string, s3: string, s4: string)
    ensures (((s0 + s1) + s2) + s3) + s4 == s0 + (s1 + (s2 + (s3 + s4)))
  {
    assert ((s0 + s1) + s2) + s3 == s0 + (s1 + (s2 + s3));
  }

  /** A description determines the row's parts: the opening label tells a
      whole day from an arrival/departure day, and each suffix is present
      exactly when its condition holds. */
  lemma DescriptionRoundTrip(a: Allowance, regionFlag: bool)
    ensures ParseDescription(AllowanceDescription(a, regionFlag)) == Some(PartsOf(a, regionFlag))
  {
    var p := PartsOf(a, regionFlag);
    var suffixes := Part(p.hotel, HotelSuffix) + MealParts(p);
    var opening := if a.wholeDay then FullDayLabel else ArrivalDepartureLabel;
    DescriptionIsLabelAndParts(a, regionFlag);
    SuffixesRoundTrip(p);
    if a.wholeDay {
      TakePart(true, FullDayLabel, suffixes, 0);
    } else {
      TakePart(false, FullDayLabel, ArrivalDepartureLabel + suffixes, 0);
      TakePart(true, ArrivalDepartureLabel, suffixes, 0);
    }
  }
}
