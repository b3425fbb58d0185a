/** Small wrapper types shared by every module of the model. */
module Common {

  datatype Option<+T> = None | Some(value: T) {
    function GetOr(default: T): T {
      match this
      case Some(v) => v
      case None => default
    }
  }

  /** The result of an operation that can fail with a reason. */
  datatype Result<+T> = Ok(value: T) | Err(reason: string)

  /** What a request handler did: it applied its change (or rendered), it
      refused the caller, the addressed row does not exist (HTTP 404), or
      the request failed with an exception before changing anything. */
  datatype Outcome =
    | Done
    | Unchanged
    | LoginRequired
    | Forbidden(message: string)
    | NotFound
    | Failed(reason: string)

  /** What a read-only view renders: its content, or the refusal (or the
      404) it stopped at first. */
  datatype Page<+T> = Show(content: T) | Stop(outcome: Outcome)

  /** A posted decimal field (`Decimal(request.POST.get(f) or "0")`): absent
      or empty, a number held in cents, or text `Decimal` cannot parse. */
  datatype DecimalInput = BlankDecimal | DecimalCents(cents: int) | BadDecimal

  /** The value the handlers compute from a posted decimal: blank reads as zero. */
  function DecimalOrZero(d: DecimalInput): (r: Option<int>)
    ensures d.BadDecimal? <==> r.None?
    ensures d.BlankDecimal? ==> r == Some(0)
    ensures d.DecimalCents? ==> r == Some(d.cents)
  {
    match d
    case BlankDecimal => Some(0)
    case DecimalCents(c) => Some(c)
    case BadDecimal => None
  }

  /** A posted date field: absent or empty, a well-formed `YYYY-MM-DD`
      (as its day number), or text the date field rejects. */
  datatype DateInput = BlankDate | ADate(day: int) | BadDate

  /** A calendar date as a day number; `d + 7` is seven days later. */
  type Date = int

  /** A timestamp: the calendar date it falls on and the second within that day. */
  datatype Instant = Instant(date: Date, second: nat)

  /** `a` is not later than `b`: the order `order_by("created_at")` sorts by. */
  predicate InstantLe(a: Instant, b: Instant) {
    a.date < b.date || (a.date == b.date && a.second <= b.second)
  }
}
