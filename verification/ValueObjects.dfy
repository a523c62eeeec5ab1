/** Money: an amount in units of 0.0001 tied to a currency. */
module ValueObjects {
  datatype Currency = Currency(code: string, minorUnits: nat)

  datatype Money = Money(amount: int, currency: Currency)
}
