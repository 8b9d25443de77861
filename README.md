# Business trip allowances and settlement

A Dafny model of the "Business Trip" document of the ERPNext Germany app.
An employee records per-diem rows (allowances), journeys and stays (accommodations) for a trip. The model covers what happens to those records:

- **Save.** Every save stamps the full-day time bounds on whole-day rows. When the trip has a region, it recomputes each row's per-diem amount from that region, subtracting the meals that were provided and adding the hotel rate. It then stores the allowance total and the private-car mileage total.
- **Submit.** On submit, when the HR app is installed and the trip has allowance rows, the document derives three things:
  - an expense claim, with one line per private-car journey and one per allowance row;
  - a zero distance on every other journey;
  - a placeholder purchase invoice for every other journey and every stay that has a receipt and a complete set of standard supplier, item and account. Where one is missing, two notices explain why.

Modules and files:

- `records.dfy` (`Records`): the records, the settings and region tables, and the documents and notices produced.
- `allowance_rules.dfy` (`AllowanceRules`): the per-diem formula, the whole-day times, the allowance total and the claim description of a row.
- `mileage.dfy` (`Mileage`): private-car distance, the mileage allowance and the distance reset.
- `claims.dfy` (`Claims`): the expense-claim lines and what they add up to.
- `invoicing.dfy` (`Invoicing`): the mode-to-settings match, `create_invoice`, and the two invoice passes of submit.
- `business_trip.dfy` (`Trips`): the document itself, a class whose allowance and journey tables are arrays updated in place by the save and submit hooks; the stays, which no hook changes, are a sequence.

Money and distances are exact reals, so the 20 % / 40 % / 40 % meal shares are exact. Dates are day numbers. The region and the settings are passed in as values. The current day and whether the HR app is installed are parameters.

## Model

| member | source | states |
|---|---|---|
| AllowanceRules.MealShare | erpnext_germany/erpnext_germany/doctype/business_trip/business_trip.py:37-44 | The deducted share of the whole-day rate lies between 0 and 1. It is 0 exactly when no meal was provided and 1 exactly when all three were. |
| AllowanceRules.RegionalAmount | erpnext_germany/erpnext_germany/doctype/business_trip/business_trip.py:35-49 | A row's amount is never negative. It equals max(base − share·W + A·[accommodation not provided], 0), where base is the whole-day rate W or the arrival/departure rate, and the meal share is always taken from W. |
| AllowanceRules.ProvidedMealNeverRaisesAmount | erpnext_germany/erpnext_germany/doctype/business_trip/business_trip.py:37-44 | With a non-negative whole-day rate, marking breakfast, lunch or dinner as provided never raises the amount. |
| AllowanceRules.FullyProvidedDayIsWorthNothing | erpnext_germany/erpnext_germany/doctype/business_trip/business_trip.py:35-49 | A whole day with all meals and the accommodation provided is worth 0. |
| AllowanceRules.WholeDayWithBreakfastExample | erpnext_germany/erpnext_germany/doctype/business_trip/business_trip.py:35-49 | A whole day at rate 30 with breakfast provided and hotel rate 20 is worth 44. |
| AllowanceRules.WithRegionalAmounts | erpnext_germany/erpnext_germany/doctype/business_trip/business_trip.py:26-49 | The per-diem pass keeps the rows and their order. Each row's amount becomes its RegionalAmount and no other field changes. |
| AllowanceRules.WithWholeDayTimes | erpnext_germany/erpnext_germany/doctype/business_trip/business_trip.py:20-24 | Whole-day rows get 00:00 and 23:59 as their time bounds. Other rows are unchanged, and only the times change. |
| AllowanceRules.WholeDayTimesIdempotent | erpnext_germany/erpnext_germany/doctype/business_trip/business_trip.py:20-24 | Stamping the whole-day times twice is the same as stamping them once. |
| AllowanceRules.SaveStepsCommute | erpnext_germany/erpnext_germany/doctype/business_trip/business_trip.py:11-13 | The per-diem pass and the time pass commute, so their order in the save hook does not matter. |
| AllowanceRules.SavedAllowances | erpnext_germany/erpnext_germany/doctype/business_trip/business_trip.py:11-13 | The rows after the save hook: same number and order; each amount is its RegionalAmount when a region is set and unchanged otherwise; whole-day rows run from 00:00 to 23:59, other rows keep their times; no other field changes. |
| AllowanceRules.TotalAmount | erpnext_germany/erpnext_germany/doctype/business_trip/business_trip.py:54-55 | The allowance total is non-negative when every amount is. |
| AllowanceRules.TotalAmountAppend | erpnext_germany/erpnext_germany/doctype/business_trip/business_trip.py:54-55 | The total of two lists of rows is the sum of their totals. |
| AllowanceRules.TotalAmountOnlyReadsAmounts | erpnext_germany/erpnext_germany/doctype/business_trip/business_trip.py:54-55 | The total depends on the amounts only, so the time pass cannot change it. |
| AllowanceRules.SavedTotalIsNonNegative | erpnext_germany/erpnext_germany/doctype/business_trip/business_trip.py:11-15 | With a region set, the total after a save is non-negative. |
| AllowanceRules.AllowanceDescription | erpnext_germany/erpnext_germany/doctype/business_trip/business_trip.py:102-115 | A row's claim description starts with "Full Day" or "Arrival/Departure". |
| AllowanceRules.DescriptionRoundTrip | erpnext_germany/erpnext_germany/doctype/business_trip/business_trip.py:102-115 | The description parses back into exactly its parts: the label, then the hotel suffix (only when accommodation was not provided and the region flag is set), then the breakfast, lunch and dinner suffixes, each present iff its meal was provided, in that fixed order. |
| Mileage.DistanceSum | erpnext_germany/erpnext_germany/doctype/business_trip/business_trip.py:51-52 | The distance sum is non-negative when every distance is. |
| Mileage.PrivateJourneys | erpnext_germany/erpnext_germany/doctype/business_trip/business_trip.py:51-52 | The filtered journeys are no more than the journeys; each of them is by "Car (private)" and is a journey of the trip. |
| Mileage.PrivateJourneysKeepEveryPrivateCar | erpnext_germany/erpnext_germany/doctype/business_trip/business_trip.py:51-52 | Every private-car journey of the trip is kept by the filter. |
| Mileage.PrivateJourneysCounts | erpnext_germany/erpnext_germany/doctype/business_trip/business_trip.py:51-52 | The filter keeps every private-car journey exactly as many times as the trip has it, and no other journey. |
| Mileage.PrivateJourneysSnoc | erpnext_germany/erpnext_germany/doctype/business_trip/business_trip.py:51-52 | The filter keeps journey order: one more journey is appended to the result exactly when it is by private car. |
| Mileage.PrivateDistance | erpnext_germany/erpnext_germany/doctype/business_trip/business_trip.py:51-52 | The private-car distance is never negative when no journey has a negative distance. |
| Mileage.NoPrivateCarNoMileage | erpnext_germany/erpnext_germany/doctype/business_trip/business_trip.py:51-52 | The mileage allowance (private distance × rate) is 0 when no journey is by private car, whatever the other journeys' distances and the rate. |
| Mileage.MileageAllowanceNonNegative | erpnext_germany/erpnext_germany/doctype/business_trip/business_trip.py:51-52 | The mileage allowance is never negative for non-negative distances and a non-negative rate. |
| Mileage.PrivateDistanceSnoc | erpnext_germany/erpnext_germany/doctype/business_trip/business_trip.py:51-52 | One more journey adds its distance when it is by private car and nothing otherwise. |
| Mileage.NoPrivateCarNoDistance | erpnext_germany/erpnext_germany/doctype/business_trip/business_trip.py:51-52 | Without a private-car journey the mileage distance is 0, whatever the other journeys' distances. |
| Mileage.ResetDistances | erpnext_germany/erpnext_germany/doctype/business_trip/business_trip.py:98-99 | After the reset, private-car journeys are unchanged, every other journey has distance 0, and only the distance changes. |
| Mileage.ResetDistancesIdempotent | erpnext_germany/erpnext_germany/doctype/business_trip/business_trip.py:98-99 | Resetting twice is the same as resetting once. |
| Mileage.ResetKeepsPrivateDistance | erpnext_germany/erpnext_germany/doctype/business_trip/business_trip.py:51-52 | The reset changes neither the private-car journeys nor the mileage distance, so the mileage total computed from the reset journeys is the same. |
| Mileage.ResetKeepsPrivateJourneys | erpnext_germany/erpnext_germany/doctype/business_trip/business_trip.py:98-99 | The reset leaves the private-car journeys as they were. |
| Claims.MileageLine | erpnext_germany/erpnext_germany/doctype/business_trip/business_trip.py:81-97 | A private-car line is dated on the journey, has the car claim type, carries the mileage description (distance, rate, origin, destination), claims and sanctions distance × mileage rate, and is booked to the trip's project and cost center. |
| Claims.MileageLines | erpnext_germany/erpnext_germany/doctype/business_trip/business_trip.py:80-97 | The journey pass yields one line per private-car journey, in journey order. |
| Claims.MileageLinesSnoc | erpnext_germany/erpnext_germany/doctype/business_trip/business_trip.py:80-97 | One more journey adds its mileage line exactly when it is by private car. |
| Claims.HotelFlag | erpnext_germany/erpnext_germany/doctype/business_trip/business_trip.py:102-105 | The hotel part is never added when the trip has no region. With a region, it is added exactly when the region's accommodation flag is set. |
| Claims.AllowanceLine | erpnext_germany/erpnext_germany/doctype/business_trip/business_trip.py:117-130 | A row's claim line claims and sanctions the row's amount on the row's date with the general claim type, and its description parses back into the row's label and suffixes. |
| Claims.AllowanceLines | erpnext_germany/erpnext_germany/doctype/business_trip/business_trip.py:101-130 | The allowance pass yields one line per row, in row order. Each line carries the row's date, the general claim type, the row's description, the row's amount as both claimed and sanctioned amount, and the trip's project and cost center. |
| Claims.ClaimLines | erpnext_germany/erpnext_germany/doctype/business_trip/business_trip.py:80-130 | The claim has one line per private-car journey plus one per row: the mileage lines come first, the allowance lines after them. |
| Claims.NewClaim | erpnext_germany/erpnext_germany/doctype/business_trip/business_trip.py:68-78 | The claim is posted today for the trip, with its employee, company, project and cost center, and holds exactly the given lines. |
| Claims.LineTotalAppend | erpnext_germany/erpnext_germany/doctype/business_trip/business_trip.py:80-130 | The claimed total of two runs of lines is the sum of their totals. |
| Claims.LinesForTotal | erpnext_germany/erpnext_germany/doctype/business_trip/business_trip.py:80-97 | Mileage lines add up to the journeys' amounts at the settings' rate, added journey by journey. |
| Claims.ScaledSumIsProduct | erpnext_germany/erpnext_germany/doctype/business_trip/business_trip.py:51-52 | Adding distance × rate journey by journey gives the total distance times the rate. |
| Claims.MileageLinesTotal | erpnext_germany/erpnext_germany/doctype/business_trip/business_trip.py:51-52 | The mileage lines add up to the mileage allowance that save computes with the same journeys and rate. |
| Claims.AllowanceLinesTotal | erpnext_germany/erpnext_germany/doctype/business_trip/business_trip.py:54-55 | The allowance lines add up to the allowance total that save computes from the same rows. |
| Claims.ClaimMatchesTotals | erpnext_germany/erpnext_germany/doctype/business_trip/business_trip.py:80-130 | The whole claim asks for the mileage allowance plus the allowance total, both computed from the same journeys, rows and rate. |
| Claims.MileageLinesSurviveReset | erpnext_germany/erpnext_germany/doctype/business_trip/business_trip.py:80-99 | Deriving the mileage lines after the reset would give the same lines. |
| Invoicing.ModeStandards | erpnext_germany/erpnext_germany/doctype/business_trip/business_trip.py:137-169 | Each of the seven known modes gets its own settings triple ("Car" the car triple, "Bus" the bus triple, and so on). Any other mode, the private car included, gets the empty triple. |
| Invoicing.CreateInvoice | erpnext_germany/erpnext_germany/doctype/business_trip/business_trip.py:178-212 | Exactly one invoice is saved iff supplier, item and account are non-empty and a receipt is attached. It has the chosen supplier, the trip's company, project and cost center, today as posting date and a link to the trip; a single line with quantity "1", rate "0" and the chosen account; and the receipt is copied onto it. Otherwise exactly two notices follow: "missing receipt" when there is none, else "standards not set", then the notice naming the journey or stay. |
| Invoicing.NotCreatedNotice | erpnext_germany/erpnext_germany/doctype/business_trip/business_trip.py:209-212 | The notice names a journey by its date, mode, origin and destination, and a stay by its city and dates. |
| Invoicing.JourneyEffects | erpnext_germany/erpnext_germany/doctype/business_trip/business_trip.py:135-170 | The journey pass yields at most two effects per journey, nothing at all when every journey is by private car, and only placeholder invoices. |
| Invoicing.AccommodationEffects | erpnext_germany/erpnext_germany/doctype/business_trip/business_trip.py:172-176 | The stay pass yields one or two effects per stay and only placeholder invoices. |
| Invoicing.UncoveredModeIsNeverInvoiced | erpnext_germany/erpnext_germany/doctype/business_trip/business_trip.py:166-170 | A journey of a mode outside the seven never gets an invoice. |
| Invoicing.SavedInvoicesAppend | erpnext_germany/erpnext_germany/doctype/business_trip/business_trip.py:135-176 | Invoices and notices of two runs of effects are those of each run, in order. |
| Invoicing.CreateInvoiceCounts | erpnext_germany/erpnext_germany/doctype/business_trip/business_trip.py:178-212 | One entry gives one invoice and no notice when it qualifies, otherwise no invoice and two notices. |
| Invoicing.JourneyEffectsCount | erpnext_germany/erpnext_germany/doctype/business_trip/business_trip.py:135-170 | The journey pass saves one invoice per qualifying journey and shows two notices per other journey that is not by private car. |
| Invoicing.AccommodationEffectsCount | erpnext_germany/erpnext_germany/doctype/business_trip/business_trip.py:172-176 | The stay pass saves one invoice per qualifying stay and shows two notices per other stay. |
| Invoicing.CreateInvoicePlaceholder | erpnext_germany/erpnext_germany/doctype/business_trip/business_trip.py:180-201 | An invoice created for one entry is a placeholder: one line, quantity "1", rate "0", non-empty supplier, item and account. |
| Invoicing.JourneyInvoicesArePlaceholders | erpnext_germany/erpnext_germany/doctype/business_trip/business_trip.py:135-170 | Every invoice of the journey pass is such a placeholder. |
| Invoicing.JourneyEffectsIgnoreDistance | erpnext_germany/erpnext_germany/doctype/business_trip/business_trip.py:98-99 | The invoice pass gives the same outcome before and after the distance reset. |
| Trips.SumAmounts | erpnext_germany/erpnext_germany/doctype/business_trip/business_trip.py:54-55 | The loop's sum is the allowance total of the rows. |
| Trips.SumPrivateDistance | erpnext_germany/erpnext_germany/doctype/business_trip/business_trip.py:51-52 | The loop's sum is the private-car distance of the journeys. |
| Trips.AllowancePass | erpnext_germany/erpnext_germany/doctype/business_trip/business_trip.py:101-130 | The loop appends exactly the allowance lines of the rows, in order. |
| Trips.JourneyInvoicePass | erpnext_germany/erpnext_germany/doctype/business_trip/business_trip.py:135-170 | The loop yields exactly the journey pass's invoices and notices. |
| Trips.AccommodationInvoicePass | erpnext_germany/erpnext_germany/doctype/business_trip/business_trip.py:172-176 | The loop yields exactly the stay pass's invoices and notices. |
| Trips.DatesInOrder | erpnext_germany/erpnext_germany/doctype/business_trip/business_trip.py:17-18 | A trip passes the date check exactly when its length in days is not negative. |
| Trips.BusinessTrip.constructor | erpnext_germany/erpnext_germany/doctype/business_trip/business_trip.py:10 | A new trip is a draft holding the given rows. |
| Trips.BusinessTrip.SetRegionalAmount | erpnext_germany/erpnext_germany/doctype/business_trip/business_trip.py:26-49 | Without a region the rows are unchanged. With one, the rows in place become WithRegionalAmounts of the old rows. |
| Trips.BusinessTrip.SetWholeDayTime | erpnext_germany/erpnext_germany/doctype/business_trip/business_trip.py:20-24 | The rows in place become WithWholeDayTimes of the old rows. |
| Trips.BusinessTrip.CalculateTotal | erpnext_germany/erpnext_germany/doctype/business_trip/business_trip.py:54-55 | The stored allowance total is the total of the current rows. |
| Trips.BusinessTrip.CalculateTotalMileageAllowance | erpnext_germany/erpnext_germany/doctype/business_trip/business_trip.py:51-52 | The stored mileage total is the private-car distance times the rate. |
| Trips.BusinessTrip.BeforeSave | erpnext_germany/erpnext_germany/doctype/business_trip/business_trip.py:11-15 | After the save hook the rows are the saved rows of the old ones, both stored totals describe them, and with a region the allowance total is non-negative. |
| Trips.BusinessTrip.Save | erpnext_germany/erpnext_germany/doctype/business_trip/business_trip.py:11-18 | A submitted trip runs neither the date check nor the save hook and is left unchanged. A draft that ends before it starts is refused and left unchanged. Otherwise the save hook runs. |
| Trips.BusinessTrip.BeforeSubmit | erpnext_germany/erpnext_germany/doctype/business_trip/business_trip.py:57-58 | Submitting sets the status to Submitted. |
| Trips.BusinessTrip.OnSubmit | erpnext_germany/erpnext_germany/doctype/business_trip/business_trip.py:60-176 | Without allowance rows or without the HR app, nothing happens: no claim, no effects, distances kept. Otherwise distances are reset, the claim holds the mileage lines followed by the allowance lines, and the effects are the journey pass followed by the stay pass. |
| Trips.BusinessTrip.ClaimJourneyPass | erpnext_germany/erpnext_germany/doctype/business_trip/business_trip.py:80-99 | The loop appends one mileage line per private-car journey and zeroes every other journey's distance in place. |
| Trips.BusinessTrip.Submit | erpnext_germany/erpnext_germany/doctype/business_trip/business_trip.py:17-65 | Only a draft is submitted. The date check runs first: a trip that ends before it starts stays a draft, with no claim, no effects and its distances kept. Otherwise the status becomes Submitted, and when the claim is derived, the claim holds the trip's header, the mileage lines then the allowance lines, the journeys lose their non-private distances, and the effects are the journey pass then the stay pass; the claim asks for the mileage allowance of the journeys before the reset, at the submit-time rate, plus the allowance total. When the stored totals agree with the current rows, journeys and rate, it asks for exactly the stored totals. |

## Left out

- The form script (`business_trip.js`) is UI glue and is not part of this model.
- `copy_attachments_by_file_url` (file-store query and insert) is not part of this model. Copying the receipt is the invoice's `attachment` field.
- Persistence and lookups (`get_doc`, `new_doc`, `save`, `get_single_value`, `get_value`) are left out. The region and the settings are values, read once per hook; the settings being edited between two reads of one hook is not modelled.
- `get_installed_apps` is the `hrmsInstalled` parameter, and `today()` is the `today` parameter.
- Messages are the `Message` datatype, not their translated HTML. Date formatting and `_()` translation are left out.
- The mileage description is kept as its parts (distance, rate, origin, destination), because the f-string number formatting is not modelled.
- Money uses exact reals, so IEEE float rounding of the amounts is not modelled.
- A region record whose rate fields are empty (the `get(..., 0.0)` defaults) is not modelled; rates are always present.
- The description's hotel test reads the region's "accommodation" field, and the amount reads "accomodation". They are kept as two fields. With no region set, the hotel test is taken as false.
- Save runs the per-diem pass before the time pass, as the code does (business_trip.py:12-13). SaveStepsCommute shows the order does not matter.
- Trips.BusinessTrip.Save: the date check is modelled as the comparison of two day numbers; missing dates, which the platform helper skips, are not modelled.
- Trips.BusinessTrip.Submit: submit reads the mileage rate again (business_trip.py:82, 92), so the claim is stated against the rate passed to submit. It equals the stored mileage total only when that rate is the one the last save used; the contract promises the stored totals only under that condition.
- Invoicing.CreateInvoice: copying the receipt onto the invoice is assumed to succeed. The copy helper throws when no file record on the trip matches the receipt (an empty receipt passes the guard and reaches it); that throw aborts the whole submit and is not modelled.
