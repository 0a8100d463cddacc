/** Values shared by the scoring rules, the score store and the save command:
    the receipt as the calculator sees it, the stored score, and the error
    values that travel between the layers. */
module Domain {

  datatype Option<+T> = None | Some(value: T)

  /** A Go `(value, error)` pair where exactly one side is meaningful. */
  datatype Result<+T> = Ok(value: T) | Err(error: Error)

  /** The sentinel errors of the core, plus the two values `ctx.Err()` can take. */
  datatype Error =
    | ErrDate            // calculator: purchase date does not parse
    | ErrTime            // calculator: purchase time does not parse
    | ErrNotFound        // store: no score under this id
    | ErrInvalidId       // store: lookup with the Nil id
    | ErrTimeOut         // store: Get cut short at the submission hand-off
    | Canceled           // context.Canceled
    | DeadlineExceeded   // context.DeadlineExceeded

  /** receipt.Points: the stored score. */
  datatype Points = Points(points: int)

  /** Day of the month as time.Time.Day() reports it. */
  type Day = d: int | 1 <= d <= 31 witness 1

  /** Hour of the day as time.Time.Hour() reports it. */
  type Hour = h: int | 0 <= h <= 23

  /** A receipt line; the price is an exact amount in cents. */
  datatype Item = Item(shortDescription: string, priceCents: int)

  /** A receipt as the calculator reads it. The purchase date and time are
      given already parsed: `None` stands for a string that time.Parse rejects. */
  datatype Receipt = Receipt(
    retailer: string,
    purchaseDay: Option<Day>,
    purchaseHour: Option<Hour>,
    items: seq<Item>,
    totalCents: int)
}
