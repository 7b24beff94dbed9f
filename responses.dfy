/** The shapes of the API responses the pages read, with only the properties
    they touch; an absent property is `None`. Also the two list idioms the
    pages apply to a property that may not hold an array. */
module Responses {
  import opened JsValues
  import opened JsStrings

  /** A property expected to hold an array: absent (or null), an array, or some
      other value, truthy or not. */
  datatype ListField<T> = Missing | Items(items: seq<T>) | NotAList(truthy: bool)

  /** A body that is either the array itself or an object with a `bookings` property.
      A null body reads like an object without the property (`data?.bookings`). */
  datatype BookingsBody<T> = ArrayBody(items: seq<T>) | ObjectBody(bookings: ListField<T>)

  /** `x || []` followed by an array method: a truthy non-array makes that method
      throw, which is the `Err` case. */
  function OrEmpty<T>(f: ListField<T>): (r: Result<seq<T>, string>)
    ensures f.Items? ==> r == Ok(f.items)
    ensures r.Err? <==> f.NotAList? && f.truthy
    ensures r.Ok? && !f.Items? ==> r.value == []
  {
    match f
    case Items(xs) => Ok(xs)
    case NotAList(truthy) => if truthy then Err("TypeError") else Ok([])
    case Missing => Ok([])
  }

  /** `Array.isArray(x) ? x : []`. */
  function ArrayOrEmpty<T>(f: ListField<T>): (r: seq<T>)
    ensures f.Items? ==> r == f.items
    ensures !f.Items? ==> r == []
  {
    if f.Items? then f.items else []
  }

  /** `s?.toLowerCase() || "pending"`: a present, non-empty status lower-cased,
      otherwise "pending". */
  function LowerOrPending(s: Option<string>): (r: string)
    ensures r != ""
    ensures s.GetOr("") == "" ==> r == "pending"
    ensures s.GetOr("") != "" ==> r == Lower(s.value)
  {
    match s
    case Some(v) => OrElse(Lower(v), "pending")
    case None => "pending"
  }

  /** A normalised status is already lower-case. */
  lemma LowerOrPendingIsLower(s: Option<string>)
    ensures Lower(LowerOrPending(s)) == LowerOrPending(s)
  {
    if s.GetOr("") != "" {
      LowerIdempotent(s.value);
    }
  }

  /** The `flight` object embedded in a booking. */
  datatype RawBookingFlight = RawBookingFlight(mongoId: Option<string>, airline: Option<string>,
                                               flightNumber: Option<string>, origin: Option<string>,
                                               destination: Option<string>, departureTime: Option<string>,
                                               arrivalTime: Option<string>, duration: Option<string>)

  /** A booking as the API returns it; `userRefId` is `user?._id`. */
  datatype RawBooking = RawBooking(mongoId: Option<string>, id: Option<string>, flight: Option<RawBookingFlight>,
                                   flightId: Option<string>, userRefId: Option<string>, userId: Option<string>,
                                   passengerName: Option<string>, passengerEmail: Option<string>,
                                   seatNumber: Option<string>, status: Option<string>,
                                   paymentStatus: Option<string>, totalAmount: Option<int>,
                                   createdAt: Option<string>)

  const NoFlight := RawBookingFlight(None, None, None, None, None, None, None, None)

  /** The object `booking.flight?.x` reads `x` from: a missing flight has no properties. */
  function FlightOf(f: Option<RawBookingFlight>): RawBookingFlight
  {
    f.GetOr(NoFlight)
  }

  /** A payment as the API returns it. */
  datatype RawPayment = RawPayment(amount: Option<int>, status: Option<string>)

  /** A flight as the API returns it; `duration` is in minutes, and may be absent. */
  datatype RawFlight = RawFlight(mongoId: Option<string>, id: Option<string>, airline: Option<string>,
                                 flightNumber: Option<string>, origin: Option<string>, destination: Option<string>,
                                 departureTime: Option<string>, arrivalTime: Option<string>, duration: Option<int>,
                                 price: Option<int>, basePrice: Option<int>, seatsAvailable: Option<int>,
                                 availableSeats: Option<int>)
}
