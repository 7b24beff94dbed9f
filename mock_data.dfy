/** The mock tables and helpers of app/_lib/mock-data.js: eight flights,
    three bookings and three payments, the two-pass `searchFlights` filter
    and the lookups by id. Prices and amounts are whole currency units. */
module MockData {
  import opened JsValues
  import opened JsStrings
  import opened Lists

  datatype Flight = Flight(id: string, airline: string, flightNumber: string, origin: string, destination: string,
                           departureTime: string, arrivalTime: string, duration: string, price: int,
                           availableSeats: int, aircraft: string)

  datatype Booking = Booking(id: string, flightId: string, flight: Flight, userId: string, passengerName: string,
                             passengerEmail: string, seatNumber: string, status: string, paymentStatus: string,
                             totalAmount: int, createdAt: string)

  datatype Payment = Payment(id: string, bookingId: string, amount: int, status: string, paidWith: string,
                             transactionId: string, createdAt: string)

  const MockFlights: seq<Flight> := [
    Flight("FL001", "SkyWings", "SW101", "New York (JFK)", "Los Angeles (LAX)", "08:00", "11:30", "5h 30m", 299, 45, "Boeing 737-800"),
    Flight("FL002", "AeroJet", "AJ205", "New York (JFK)", "Los Angeles (LAX)", "14:00", "17:15", "5h 15m", 349, 28, "Airbus A320"),
    Flight("FL003", "CloudAir", "CA310", "London (LHR)", "Paris (CDG)", "09:30", "11:45", "1h 15m", 89, 62, "Airbus A319"),
    Flight("FL004", "SkyWings", "SW422", "Tokyo (NRT)", "Seoul (ICN)", "10:00", "12:30", "2h 30m", 159, 35, "Boeing 787-9"),
    Flight("FL005", "GulfAir", "GA118", "Dubai (DXB)", "Singapore (SIN)", "22:00", "09:30", "7h 30m", 399, 18, "Airbus A380"),
    Flight("FL006", "OceanicWings", "OW901", "Sydney (SYD)", "Auckland (AKL)", "06:45", "11:00", "3h 15m", 179, 52, "Boeing 737 MAX 8"),
    Flight("FL007", "SunAir", "SA555", "Miami (MIA)", "Cancun (CUN)", "11:00", "13:15", "2h 15m", 149, 40, "Airbus A321"),
    Flight("FL008", "EuroConnect", "EC202", "Frankfurt (FRA)", "Rome (FCO)", "15:30", "17:20", "1h 50m", 119, 55, "Embraer E190")
  ]

  const MockBookings: seq<Booking> := [
    Booking("BK001", "FL001", MockFlights[0], "1", "John Doe", "john@example.com", "12A", "confirmed", "completed", 299, "2025-01-10T10:00:00Z"),
    Booking("BK002", "FL003", MockFlights[2], "1", "John Doe", "john@example.com", "5C", "pending", "pending", 89, "2025-01-11T14:30:00Z"),
    Booking("BK003", "FL005", MockFlights[4], "1", "John Doe", "john@example.com", "22F", "cancelled", "failed", 399, "2025-01-08T09:15:00Z")
  ]

  const MockPayments: seq<Payment> := [
    Payment("PAY001", "BK001", 299, "completed", "Credit Card", "TXN_ABC123", "2025-01-10T10:05:00Z"),
    Payment("PAY002", "BK002", 89, "pending", "Credit Card", "TXN_DEF456", "2025-01-11T14:35:00Z"),
    Payment("PAY003", "BK003", 399, "failed", "Credit Card", "TXN_GHI789", "2025-01-08T09:20:00Z")
  ]

  predicate NotParen(c: char)
  {
    c != '(' && c != ')'
  }

  /** `s.replace(/[()]/g, "")`. */
  function RemoveParens(s: string): (r: string)
    ensures '(' !in r && ')' !in r
  {
    var r := Filter(s, c => NotParen(c));
    forall c | c in r ensures NotParen(c) { FilterMembers(s, c => NotParen(c), c); }
    r
  }

  /** One place filter: the lower-cased place contains the lower-cased query,
      as it is or with its parentheses removed. */
  predicate MatchesPlace(place: string, query: string)
  {
    Contains(Lower(place), Lower(query)) || Contains(RemoveParens(Lower(place)), Lower(query))
  }

  predicate MatchesOrigin(origin: string, f: Flight)
  {
    MatchesPlace(f.origin, origin)
  }

  predicate MatchesDestination(destination: string, f: Flight)
  {
    MatchesPlace(f.destination, destination)
  }

  /** A flight passes the search: each non-empty query matches its place. */
  predicate SearchMatch(origin: string, destination: string, f: Flight)
  {
    (origin == "" || MatchesOrigin(origin, f)) && (destination == "" || MatchesDestination(destination, f))
  }

  /** The flights `searchFlights(origin, destination, date)` returns. */
  function SearchResults(origin: string, destination: string): seq<Flight>
  {
    Filter(MockFlights, f => SearchMatch(origin, destination, f))
  }

  /** `searchFlights`: `results` starts as a copy of the table and is narrowed by
      the origin pass, then the destination pass; `date` is never read. */
  method SearchFlights(origin: string, destination: string, date: string) returns (results: seq<Flight>)
    ensures results == SearchResults(origin, destination)
  {
    results := MockFlights;
    ghost var passOrigin := f => origin == "" || MatchesOrigin(origin, f);
    if origin != "" {
      results := Filter(results, f => MatchesOrigin(origin, f));
      FilterFilter(MockFlights, f => true, f => MatchesOrigin(origin, f), passOrigin);
      FilterAllPass(MockFlights, f => true);
    } else {
      FilterAllPass(MockFlights, passOrigin);
    }
    assert results == Filter(MockFlights, passOrigin);
    if destination != "" {
      results := Filter(results, f => MatchesDestination(destination, f));
      FilterFilter(MockFlights, passOrigin, f => MatchesDestination(destination, f), f => SearchMatch(origin, destination, f));
    } else {
      FilterFilter(MockFlights, passOrigin, f => true, f => SearchMatch(origin, destination, f));
      FilterAllPass(Filter(MockFlights, passOrigin), f => true);
    }
  }

  /** A flight is found exactly when it is in the table and passes both filters. */
  lemma SearchMembers(origin: string, destination: string, f: Flight)
    ensures f in SearchResults(origin, destination) <==> f in MockFlights && SearchMatch(origin, destination, f)
  {
    FilterMembers(MockFlights, f => SearchMatch(origin, destination, f), f);
  }

  /** The results keep the table's order. */
  lemma SearchKeepsOrder(origin: string, destination: string)
    ensures IsSubsequence(SearchResults(origin, destination), MockFlights)
    ensures |SearchResults(origin, destination)| <= |MockFlights|
  {
    FilterIsSubsequence(MockFlights, f => SearchMatch(origin, destination, f));
    FilterLength(MockFlights, f => SearchMatch(origin, destination, f));
  }

  /** With both queries empty every flight is returned. */
  lemma EmptySearchReturnsAll()
    ensures SearchResults("", "") == MockFlights
  {
    FilterAllPass(MockFlights, f => SearchMatch("", "", f));
  }

  /** `getFlightById(id)`: the first flight with that id, or undefined. */
  function FlightById(id: string): (r: Option<Flight>)
    ensures r.Some? ==> r.value in MockFlights && r.value.id == id
    ensures r.None? <==> forall f :: f in MockFlights ==> f.id != id
  {
    Find(MockFlights, (f: Flight) => f.id == id)
  }

  /** `getUserBookings(userId)`: the bookings of that user, in order. */
  function UserBookings(userId: string): (r: seq<Booking>)
  {
    Filter(MockBookings, (b: Booking) => b.userId == userId)
  }

  lemma UserBookingsExact(userId: string, b: Booking)
    ensures b in UserBookings(userId) <==> b in MockBookings && b.userId == userId
    ensures IsSubsequence(UserBookings(userId), MockBookings)
  {
    FilterMembers(MockBookings, (b: Booking) => b.userId == userId, b);
    FilterIsSubsequence(MockBookings, (b: Booking) => b.userId == userId);
  }

  /** `getBookingById(id)`: the first booking with that id, or undefined. */
  function BookingById(id: string): (r: Option<Booking>)
    ensures r.Some? ==> r.value in MockBookings && r.value.id == id
    ensures r.None? <==> forall b :: b in MockBookings ==> b.id != id
  {
    Find(MockBookings, (b: Booking) => b.id == id)
  }

  /** Ids are unique in each table, so "first with that id" is "the one with that id". */
  lemma MockIdsDistinct()
    ensures forall i, j :: 0 <= i < j < |MockFlights| ==> MockFlights[i].id != MockFlights[j].id
    ensures forall i, j :: 0 <= i < j < |MockBookings| ==> MockBookings[i].id != MockBookings[j].id
    ensures forall i, j :: 0 <= i < j < |MockPayments| ==> MockPayments[i].id != MockPayments[j].id
  {
  }

  /** With unique ids, a lookup finds every flight by its own id. */
  lemma FlightByOwnId(f: Flight)
    requires f in MockFlights
    ensures FlightById(f.id) == Some(f)
  {
    MockIdsDistinct();
    var r := FlightById(f.id);
    var i :| 0 <= i < |MockFlights| && MockFlights[i] == f;
    var j :| 0 <= j < |MockFlights| && MockFlights[j] == r.value;
    assert i == j;
  }

  lemma BookingByOwnId(b: Booking)
    requires b in MockBookings
    ensures BookingById(b.id) == Some(b)
  {
    MockIdsDistinct();
    var r := BookingById(b.id);
    var i :| 0 <= i < |MockBookings| && MockBookings[i] == b;
    var j :| 0 <= j < |MockBookings| && MockBookings[j] == r.value;
    assert i == j;
  }

  /** Each booking embeds the flight its `flightId` names and costs that flight's price. */
  lemma BookingsMatchFlights(b: Booking)
    requires b in MockBookings
    ensures FlightById(b.flightId) == Some(b.flight)
    ensures b.totalAmount == b.flight.price
  {
    assert MockBookings[0].flight == MockFlights[0] && MockBookings[1].flight == MockFlights[2] && MockBookings[2].flight == MockFlights[4];
    FlightByOwnId(b.flight);
  }

  /** Each payment references a booking, and pays exactly that booking's total. */
  lemma PaymentsMatchBookings(p: Payment)
    requires p in MockPayments
    ensures BookingById(p.bookingId).Some?
    ensures BookingById(p.bookingId).value.totalAmount == p.amount
  {
    var k :| 0 <= k < 3 && MockPayments[k] == p;
    assert p.bookingId == MockBookings[k].id;
    BookingByOwnId(MockBookings[k]);
  }
}
