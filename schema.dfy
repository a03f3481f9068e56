/** The records the pricing engine reads: vehicle rate cards, services, configured
    line items and sales taxes, with the field shapes and defaults of the
    application's schemas (shared/schemas/prismaSchemas.ts). Nullable fields are
    `Option`s; the engine's `x || 0` and truthiness tests are `OrZero` and `IsTrue`. */
module Schema {

  datatype Option<T> = None | Some(value: T)

  /** `x || 0` on a nullable number: a missing value (and zero) reads as zero. */
  function OrZero(x: Option<real>): real
  {
    match x
    case None => 0.0
    case Some(v) => v
  }

  /** Truthiness of a nullable boolean: only a present `true` counts. */
  predicate IsTrue(b: Option<bool>)
  {
    b == Some(true)
  }

  /** A vehicle's rate card. `minRate` is carried but never priced. */
  datatype Vehicle = Vehicle(
    name: string,
    maxPassengers: Option<real>,
    maxLuggage: Option<real>,
    perKm: Option<real>,
    perHour: Option<real>,
    minHours: Option<real>,
    minDistance: Option<real>,
    minRate: Option<real>)

  /** A service type; `isHourly` selects the pricing mode. */
  datatype Service = Service(name: string, isHourly: Option<bool>)

  /** The scope tag of a line item: a stored null, a field left absent
      (`undefined`), or a context tag (possibly empty). */
  datatype AppliesTo = Null | Absent | Tag(tag: string)

  /** A configured charge rule. (`label` is a Dafny keyword, so the source's
      `label` fields are called `name` on vehicles and services and `caption`
      on line items and rows.) */
  datatype LineItem = LineItem(
    caption: string,
    isPercentage: bool,
    isTaxable: bool,
    amount: real,
    isActive: bool,
    appliesTo: AppliesTo)

  /** A line item with every defaulted field at its schema default. */
  function DefaultLineItem(): LineItem
  {
    LineItem("", false, false, 0.0, true, Absent)
  }

  /** A named sales tax rate, in percent. */
  datatype SalesTax = SalesTax(taxName: string, amount: real, isActive: Option<bool>)
}
