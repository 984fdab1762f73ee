/** The few Foundation value types the chat core touches.
    Their textual rendering (DateFormatter output, Decimal and UUID
    descriptions) is locale and library behaviour, so it enters the
    model as the function-valued fields of a `Formatting` value. */
module Foundation {

  datatype Option<+T> = None | Some(value: T)

  /** A point in time, as a count of ticks since a reference instant. */
  datatype Date = Date(ticks: int)

  /** A base-10 decimal number: mantissa x 10^(-scale). */
  datatype Decimal = Decimal(mantissa: int, scale: nat)

  /** A message or record identifier; fresh ones are drawn from a counter. */
  type Uuid = nat

  /** How values are rendered as text:
      `decimalText` is the description of a Decimal (`"\(amount)"`),
      `uuidText` the description of a UUID (`"\(id)"`),
      `mediumDateShortTime`, `shortDate` and `mediumDate` the output of a
      DateFormatter with the named date and time styles. */
  datatype Formatting = Formatting(
    decimalText: Decimal -> string,
    uuidText: Uuid -> string,
    mediumDateShortTime: Date -> string,
    shortDate: Date -> string,
    mediumDate: Date -> string)
}
