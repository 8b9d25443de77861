/** Purchase-invoice routing on submit: which standard supplier, item and
    account a bill is booked with, when a placeholder invoice is created, and
    which notices are shown when it is not. */
module Invoicing {
  import opened Records
  import opened Mileage

  /** The empty triple, chosen for modes the settings do not cover. */
  const NoStandards: Standards := Standards("", "", "")

  /** The transport modes the settings hold a triple for. */
  const InvoicedModes: set<string> :=
    {"Car", "Car (rental)", "Taxi", "Bus", "Train", "Airplane", "Public Transport"}

  /** The triple configured for a transport mode; any other mode, the
      private car included, gets the empty triple. */
  function ModeStandards(s: Settings, mode: string): (t: Standards)
    ensures mode !in InvoicedModes ==> t == NoStandards
    ensures mode == "Car" ==> t == s.car
    ensures mode == "Car (rental)" ==> t == s.carRental
    ensures mode == "Taxi" ==> t == s.taxi
    ensures mode == "Bus" ==> t == s.bus
    ensures mode == "Train" ==> t == s.train
    ensures mode == "Airplane" ==> t == s.airplane
    ensures mode == "Public Transport" ==> t == s.publicTransport
  {
    match mode
    case "Car" => s.car
    case "Car (rental)" => s.carRental
    case "Taxi" => s.taxi
    case "Bus" => s.bus
    case "Train" => s.train
    case "Airplane" => s.airplane
    case "Public Transport" => s.publicTransport
    case _ => NoStandards
  }

  /** Supplier, item and account are all filled in. */
  predicate Configured(t: Standards)
  {
    t.supplier != "" && t.item != "" && t.account != ""
  }

  function TopicReceipt(topic: InvoiceTopic): (receipt: Option<string>)
  {
    match topic
    case JourneyTopic(j) => j.receipt
    case AccommodationTopic(a) => a.receipt
  }

  /** The notice that names the entry no invoice was created for. */
  function NotCreatedNotice(topic: InvoiceTopic): (m: Message)
    ensures topic.JourneyTopic? <==> m.JourneyNotInvoiced?
    ensures topic.AccommodationTopic? <==> m.AccommodationNotInvoiced?
    ensures m.JourneyNotInvoiced? ==>
      && m.date == topic.journey.date && m.mode == topic.journey.mode
      && m.origin == topic.journey.origin && m.destination == topic.journey.destination
    ensures m.AccommodationNotInvoiced? ==>
      && m.city == topic.stay.city && m.fromDate == topic.stay.fromDate && m.toDate == topic.stay.toDate
  {
    match topic
    case JourneyTopic(j) => JourneyNotInvoiced(j.date, j.mode, j.origin, j.destination)
    case AccommodationTopic(a) => AccommodationNotInvoiced(a.city, a.fromDate, a.toDate)
  }

  /** Whether an invoice is created: the triple is complete and a receipt is attached. */
  predicate Invoiced(topic: InvoiceTopic, t: Standards)
  {
    Configured(t) && TopicReceipt(topic).Some?
  }

  /** What one entry yields: a saved placeholder invoice (one line, quantity
      "1", rate "0", booked to the chosen account, with the receipt copied
      onto it) when it qualifies; otherwise the reason, where a missing
      receipt takes priority over missing settings, followed by the notice
      naming the entry. */
  function CreateInvoice(h: TripHeader, today: Date, topic: InvoiceTopic, t: Standards): (effects: seq<Effect>)
    ensures Invoiced(topic, t) <==> |effects| == 1
    ensures Invoiced(topic, t) ==>
      && effects[0].InvoiceSaved?
      && effects[0].invoice.supplier == t.supplier
      && effects[0].invoice.items
         == [InvoiceItem(t.item, "1", "0", h.project, h.costCenter, t.account)]
      && effects[0].invoice.attachment == TopicReceipt(topic).value
      && effects[0].invoice.businessTrip == h.name
      && effects[0].invoice.company == h.company
      && effects[0].invoice.postingDate == today
      && effects[0].invoice.project == h.project
      && effects[0].invoice.costCenter == h.costCenter
    ensures !Invoiced(topic, t) ==>
      && |effects| == 2
      && effects[0] == Notice(if TopicReceipt(topic).None? then MissingReceipt else StandardsNotSet)
      && effects[1] == Notice(NotCreatedNotice(topic))
  {
    var receipt := TopicReceipt(topic);
    if t.supplier != "" && t.item != "" && t.account != "" && receipt != None then
      var invoice := PurchaseInvoice(
        t.supplier, h.company, today, h.name, h.project, h.costCenter,
        [InvoiceItem(t.item, "1", "0", h.project, h.costCenter, t.account)],
        receipt.value);
      [InvoiceSaved(invoice)]
    else
      var reason := if receipt == None then MissingReceipt else StandardsNotSet;
      [Notice(reason), Notice(NotCreatedNotice(topic))]
  }

  /** A placeholder invoice: one line of quantity "1" at rate "0", with a
      supplier, an item and an account that are all filled in. */
  predicate Placeholder(inv: PurchaseInvoice)
  {
    && |inv.items| == 1
    && inv.items[0].qty == "1" && inv.items[0].rate == "0"
    && inv.supplier != "" && inv.items[0].itemName != "" && inv.items[0].expenseAccount != ""
  }

  /** What the journey pass yields: nothing for private-car journeys, the
      outcome of CreateInvoice with the mode's triple for every other one. */
  function JourneyEffects(h: TripHeader, today: Date, s: Settings, js: seq<Journey>): (effects: seq<Effect>)
    ensures |effects| <= 2 * |js|
    ensures (forall k :: 0 <= k < |js| ==> IsPrivateCar(js[k])) ==> effects == []
    ensures forall k :: 0 <= k < |effects| && effects[k].InvoiceSaved? ==> Placeholder(effects[k].invoice)
  {
    if |js| == 0 then []
    else
      var j := js[|js| - 1];
      JourneyEffects(h, today, s, js[..|js| - 1])
      + (if IsPrivateCar(j) then [] else CreateInvoice(h, today, JourneyTopic(j), ModeStandards(s, j.mode)))
  }

  /** What the accommodation pass yields: the outcome of CreateInvoice with
      the accommodation triple for every stay. */
  function AccommodationEffects(h: TripHeader, today: Date, s: Settings, stays: seq<Accommodation>): (effects: seq<Effect>)
    ensures |stays| <= |effects| <= 2 * |stays|
    ensures forall k :: 0 <= k < |effects| && effects[k].InvoiceSaved? ==> Placeholder(effects[k].invoice)
  {
    if |stays| == 0 then []
    else
      AccommodationEffects(h, today, s, stays[..|stays| - 1])
      + CreateInvoice(h, today, AccommodationTopic(stays[|stays| - 1]), s.accommodation)
  }

  /** A journey that gets an invoice. */
  predicate JourneyInvoiced(s: Settings, j: Journey)
  {
    !IsPrivateCar(j) && Invoiced(JourneyTopic(j), ModeStandards(s, j.mode))
  }

  /** A journey of a mode the settings do not cover never gets an invoice. */
  lemma UncoveredModeIsNeverInvoiced(s: Settings, j: Journey)
    requires j.mode !in InvoicedModes
    ensures !JourneyInvoiced(s, j)
  {
  }

  /** The number of journeys that get an invoice, and of the other
      journeys that are not by private car. */
  function InvoicedJourneyCount(s: Settings, js: seq<Journey>): (n: nat)
  {
    if |js| == 0 then 0
    else InvoicedJourneyCount(s, js[..|js| - 1]) + (if JourneyInvoiced(s, js[|js| - 1]) then 1 else 0)
  }

  function RefusedJourneyCount(s: Settings, js: seq<Journey>): (n: nat)
  {
    if |js| == 0 then 0
    else
      var j := js[|js| - 1];
      RefusedJourneyCount(s, js[..|js| - 1]) + (if !IsPrivateCar(j) && !JourneyInvoiced(s, j) then 1 else 0)
  }

  /** The number of stays that get an invoice, and of those that do not. */
  function InvoicedStayCount(s: Settings, stays: seq<Accommodation>): (n: nat)
  {
    if |stays| == 0 then 0
    else
      InvoicedStayCount(s, stays[..|stays| - 1])
      + (if Invoiced(AccommodationTopic(stays[|stays| - 1]), s.accommodation) then 1 else 0)
  }

  function RefusedStayCount(s: Settings, stays: seq<Accommodation>): (n: nat)
  {
    if |stays| == 0 then 0
    else
      RefusedStayCount(s, stays[..|stays| - 1])
      + (if Invoiced(AccommodationTopic(stays[|stays| - 1]), s.accommodation) then 0 else 1)
  }

  /** The invoices among a list of effects, in order. */
  function SavedInvoices(effects: seq<Effect>): (invoices: seq<PurchaseInvoice>)
  {
    if |effects| == 0 then []
    else
      var e := effects[|effects| - 1];
      SavedInvoices(effects[..|effects| - 1]) + (if e.InvoiceSaved? then [e.invoice] else [])
  }

  /** The number of notices among a list of effects. */
  function NoticeCount(effects: seq<Effect>): (n: nat)
  {
    if |effects| == 0 then 0
    else NoticeCount(effects[..|effects| - 1]) + (if effects[|effects| - 1].Notice? then 1 else 0)
  }

  lemma {:induction false} SavedInvoicesAppend(xs: seq<Effect>, ys: seq<Effect>)
    ensures SavedInvoices(xs + ys) == SavedInvoices(xs) + SavedInvoices(ys)
    ensures NoticeCount(xs + ys) == NoticeCount(xs) + NoticeCount(ys)
    decreases |ys|
  {
    if |ys| > 0 {
      assert (xs + ys)[..|xs + ys| - 1] == xs + ys[..|ys| - 1];
      SavedInvoicesAppend(xs, ys[..|ys| - 1]);
    } else {
      assert xs + ys == xs;
    }
  }

  /** One entry yields one invoice and no notice when it qualifies, and two
      notices and no invoice otherwise. */
  lemma CreateInvoiceCounts(h: TripHeader, today: Date, topic: InvoiceTopic, t: Standards)
    ensures |SavedInvoices(CreateInvoice(h, today, topic, t))| == (if Invoiced(topic, t) then 1 else 0)
    ensures NoticeCount(CreateInvoice(h, today, topic, t)) == (if Invoiced(topic, t) then 0 else 2)
  {
    var effects := CreateInvoice(h, today, topic, t);
    if Invoiced(topic, t) {
      assert effects[..0] == [];
    } else {
      var first := effects[..1];
      assert first[..0] == [];
      assert effects[..|effects| - 1] == first;
      assert SavedInvoices(first) == [];
      assert NoticeCount(first) == 1;
    }
  }

  /** The journey pass yields exactly one invoice per qualifying journey and
      exactly two notices per other journey not by private car. */
  lemma {:induction false} JourneyEffectsCount(h: TripHeader, today: Date, s: Settings, js: seq<Journey>)
    ensures |SavedInvoices(JourneyEffects(h, today, s, js))| == InvoicedJourneyCount(s, js)
    ensures NoticeCount(JourneyEffects(h, today, s, js)) == 2 * RefusedJourneyCount(s, js)
  {
    if |js| > 0 {
      var j := js[|js| - 1];
      var init := js[..|js| - 1];
      JourneyEffectsCount(h, today, s, init);
      var tail := if IsPrivateCar(j) then [] else CreateInvoice(h, today, JourneyTopic(j), ModeStandards(s, j.mode));
      SavedInvoicesAppend(JourneyEffects(h, today, s, init), tail);
      if !IsPrivateCar(j) {
        CreateInvoiceCounts(h, today, JourneyTopic(j), ModeStandards(s, j.mode));
      }
    }
  }

  /** The accommodation pass yields exactly one invoice per qualifying stay
      and exactly two notices per other stay. */
  lemma {:induction false} AccommodationEffectsCount(h: TripHeader, today: Date, s: Settings, stays: seq<Accommodation>)
    ensures |SavedInvoices(AccommodationEffects(h, today, s, stays))| == InvoicedStayCount(s, stays)
    ensures NoticeCount(AccommodationEffects(h, today, s, stays)) == 2 * RefusedStayCount(s, stays)
  {
    if |stays| > 0 {
      var a := stays[|stays| - 1];
      var init := stays[..|stays| - 1];
      AccommodationEffectsCount(h, today, s, init);
      SavedInvoicesAppend(AccommodationEffects(h, today, s, init), CreateInvoice(h, today, AccommodationTopic(a), s.accommodation));
      CreateInvoiceCounts(h, today, AccommodationTopic(a), s.accommodation);
    }
  }

  /** Every invoice the journey pass saves is a placeholder. */
  lemma {:induction false} JourneyInvoicesArePlaceholders(h: TripHeader, today: Date, s: Settings, js: seq<Journey>)
    ensures forall inv :: inv in SavedInvoices(JourneyEffects(h, today, s, js)) ==> Placeholder(inv)
  {
    if |js| > 0 {
      var j := js[|js| - 1];
      var init := js[..|js| - 1];
      JourneyInvoicesArePlaceholders(h, today, s, init);
      var tail := if IsPrivateCar(j) then [] else CreateInvoice(h, today, JourneyTopic(j), ModeStandards(s, j.mode));
      SavedInvoicesAppend(JourneyEffects(h, today, s, init), tail);
      if !IsPrivateCar(j) {
        CreateInvoicePlaceholder(h, today, JourneyTopic(j), ModeStandards(s, j.mode));
      }
    }
  }

  lemma CreateInvoicePlaceholder(h: TripHeader, today: Date, topic: InvoiceTopic, t: Standards)
    ensures forall inv :: inv in SavedInvoices(CreateInvoice(h, today, topic, t)) ==> Placeholder(inv)
  {
    var effects := CreateInvoice(h, today, topic, t);
    if Invoiced(topic, t) {
      assert effects[..0] == [];
    } else {
      var first := effects[..1];
      assert first[..0] == [];
      assert effects[..|effects| - 1] == first;
      assert SavedInvoices(first) == [];
      assert NoticeCount(first) == 1;
    }
  }

  /** The invoice pass does not read distances, so running it on the
      journeys after their distances were reset gives the same outcome. */
  lemma {:induction false} JourneyEffectsIgnoreDistance(h: TripHeader, today: Date, s: Settings, js: seq<Journey>)
    ensures JourneyEffects(h, today, s, ResetDistances(js)) == JourneyEffects(h, today, s, js)
  {
    if |js| > 0 {
      var ks := ResetDistances(js);
      assert ks[..|ks| - 1] == ResetDistances(js[..|js| - 1]);
      JourneyEffectsIgnoreDistance(h, today, s, js[..|js| - 1]);
    }
  }
}
