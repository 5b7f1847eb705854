/** A client company and its financial settings (the fields the pricing and settlement code read). */
module Companies {
  import opened Wrappers

  type CompanyId = nat

  datatype CalculationType = Fluid | Average

  /** The company-level discount kind; `NoDiscount` is the `NONE` choice. */
  datatype DiscountType = NoDiscount | Percentage | Fixed

  /** The rounding tier offered to administrators; `NoRounding` is the `NONE` choice. */
  datatype RoundingAmount = NoRounding | Hundred | FiveHundred | Thousand

  datatype PaymentModel = Online | Invoice

  datatype Company = Company(
    name: string,
    calculationType: CalculationType,
    averagePrice: real,
    paymentModel: PaymentModel,
    discountType: DiscountType,
    discountValue: real,
    roundingAmount: RoundingAmount)

  /** A company created with every financial field left at its column default. */
  function DefaultCompany(name: string): (c: Company)
    ensures c.name == name
    ensures c.calculationType == Fluid && c.averagePrice == 0.0
    ensures c.paymentModel == Online
    ensures c.discountType == NoDiscount && c.discountValue == 0.0
    ensures c.roundingAmount == NoRounding
  {
    Company(name, Fluid, 0.0, Online, NoDiscount, 0.0, NoRounding)
  }
}
