/** The records a business trip is made of, the configuration it reads and
    the documents and notices it produces. Money and distances are exact
    reals; dates are day numbers. */
module Records {

  datatype Option<+T> = None | Some(value: T)

  /** A calendar day, as a day number. */
  type Date = int

  /** The one transport mode that is reimbursed per kilometre. */
  const PrivateCar: string := "Car (private)"

  /** Time bounds written onto every whole-day allowance row. */
  const DayStart: string := "00:00"
  const DayEnd: string := "23:59"

  /** One per-diem row of the trip ("Business Trip Allowance"). */
  datatype Allowance = Allowance(
    date: Date,
    wholeDay: bool,
    fromTime: string,
    toTime: string,
    breakfastProvided: bool,
    lunchProvided: bool,
    dinnerProvided: bool,
    accommodationProvided: bool,
    amount: real)

  /** One travel segment ("Business Trip Journey"); `receipt` is the URL of
      an attached file, or None when nothing is attached. */
  datatype Journey = Journey(
    date: Date,
    mode: string,
    distance: real,
    origin: string,
    destination: string,
    receipt: Option<string>)

  /** One lodging stay ("Business Trip Accommodation"). */
  datatype Accommodation = Accommodation(
    city: string,
    fromDate: Date,
    toDate: Date,
    receipt: Option<string>)

  /** The rate table of a "Business Trip Region". The amount calculation
      reads the rate stored under "accomodation"; the claim description
      tests a separate field, "accommodation", kept here as a flag. */
  datatype Region = Region(
    wholeDayRate: real,
    arrivalOrDepartureRate: real,
    accommodationRate: real,
    accommodationFlag: bool)

  /** Standard supplier, item and expense account for one kind of bill;
      the empty string stands for a setting that is not filled in. */
  datatype Standards = Standards(supplier: string, item: string, account: string)

  /** The "Business Trip Settings" singleton. */
  datatype Settings = Settings(
    mileageAllowance: real,
    expenseClaimType: string,
    expenseClaimTypeCar: string,
    car: Standards,
    carRental: Standards,
    taxi: Standards,
    bus: Standards,
    train: Standards,
    airplane: Standards,
    publicTransport: Standards,
    accommodation: Standards)

  /** The header fields of the trip that every derived document copies. */
  datatype TripHeader = TripHeader(
    name: string,
    employee: string,
    company: string,
    project: string,
    costCenter: string)

  /** The description of an expense-claim line: the per-kilometre text of a
      private-car journey (kept as its parts, since number formatting is not
      modelled) or the text of an allowance line. */
  datatype Description =
    | MileageText(distance: real, rate: real, origin: string, destination: string)
    | Text(text: string)

  datatype ExpenseLine = ExpenseLine(
    expenseDate: Date,
    expenseType: string,
    description: Description,
    amount: real,
    sanctionedAmount: real,
    project: string,
    costCenter: string)

  datatype ExpenseClaim = ExpenseClaim(
    employee: string,
    company: string,
    postingDate: Date,
    businessTrip: string,
    project: string,
    costCenter: string,
    expenses: seq<ExpenseLine>)

  datatype InvoiceItem = InvoiceItem(
    itemName: string,
    qty: string,
    rate: string,
    project: string,
    costCenter: string,
    expenseAccount: string)

  /** A saved purchase invoice; `attachment` is the receipt file that was
      copied onto it. */
  datatype PurchaseInvoice = PurchaseInvoice(
    supplier: string,
    company: string,
    postingDate: Date,
    businessTrip: string,
    project: string,
    costCenter: string,
    items: seq<InvoiceItem>,
    attachment: string)

  /** The notices shown when an invoice is not created. */
  datatype Message =
    | MissingReceipt
    | StandardsNotSet
    | JourneyNotInvoiced(date: Date, mode: string, origin: string, destination: string)
    | AccommodationNotInvoiced(city: string, fromDate: Date, toDate: Date)

  /** What the invoice derivation does, in order: save an invoice or show a notice. */
  datatype Effect = InvoiceSaved(invoice: PurchaseInvoice) | Notice(message: Message)

  /** The entry an invoice is derived from (a journey or a stay, the entry an invoice is created for). */
  datatype InvoiceTopic = JourneyTopic(journey: Journey) | AccommodationTopic(stay: Accommodation)
}
