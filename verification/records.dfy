/**
 * The rows the pages read from and write to the database, as the server
 * actions type them (ticketActions, voucherActions, airportActions,
 * airlineActions), and the outcome of calling a server action.
 */
module Records {
  import opened Wrappers

  /** A row of `tickets`. The `class` column is `flightClass` here. */
  datatype Ticket = Ticket(
    id: nat,
    origin: string,
    destination: string,
    date: string,
    departureTime: string,
    price: int,
    stock: int,
    flightClass: string,
    airlines: string)

  /** A row of `vouchers`. The text columns may come back missing, which the
      edit form guards against with `||` and `?.`. */
  datatype Voucher = Voucher(
    id: nat,
    code: Option<string>,
    discountType: Option<string>,
    discountValue: int,
    quota: int,
    validFrom: Option<string>,
    validUntil: Option<string>)

  datatype Airport = Airport(id: nat, city: string, name: string, code: string)

  /** A row of `airlines`; `country` is optional. */
  datatype Airline = Airline(id: nat, name: string, code: string, country: Option<string>)

  /** `value || ""` and `value ?? ""` on an optional text column: the
      text, or the empty string when it is missing. */
  function OrEmpty(o: Option<string>): (s: string)
    ensures o.Some? ==> s == o.value
    ensures o.None? ==> s == ""
  {
    if o.Some? then o.value else ""
  }

  /** The part of an order row the admin order screen works with. */
  datatype Order = Order(id: nat, status: string)
}

/**
 * What a server action gives back, as far as the pages look at it: an
 * `{ error }` that is either absent or carries a message, and a
 * `{ data, error }` read whose data replaces a list.
 */
module Remote {
  datatype Outcome = Ok | Failed(message: string)

  datatype Fetch<T> = Rows(data: seq<T>) | FetchFailed(message: string)

  /** `if (error) setError(error.message)`: the message shown after a call. */
  function Reported(current: string, o: Outcome): (r: string)
    ensures o.Ok? ==> r == current
    ensures o.Failed? ==> r == o.message
  {
    match o
    case Ok => current
    case Failed(m) => m
  }
}
