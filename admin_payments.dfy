/** The administrator's payments page, app/admin/payments/page.js: the
    per-status totals and the payments joined with their bookings, over the
    mock tables. */
module AdminPayments {
  import opened JsValues
  import opened Lists
  import opened MockData

  function PaidAmount(p: Payment): int
  {
    p.amount
  }

  /** The sum of the amounts of the payments with exactly that status. */
  function Total(ps: seq<Payment>, status: string): (r: int)
    ensures (forall p :: p in ps ==> p.status != status) ==> r == 0
  {
    var withStatus := (p: Payment) => p.status == status;
    FilterEmptyIff(ps, withStatus);
    Sum(Filter(ps, withStatus), PaidAmount)
  }

  /** Totals add up table by table. */
  lemma TotalConcat(ps: seq<Payment>, qs: seq<Payment>, status: string)
    ensures Total(ps + qs, status) == Total(ps, status) + Total(qs, status)
  {
    FilterConcat(ps, qs, (p: Payment) => p.status == status);
    SumConcat(Filter(ps, (p: Payment) => p.status == status), Filter(qs, (p: Payment) => p.status == status), PaidAmount);
  }

  /** The three cards on the mock data: completed 299, pending 89, failed 399. */
  lemma MockTotals()
    ensures Total(MockPayments, "completed") == 299
    ensures Total(MockPayments, "pending") == 89
    ensures Total(MockPayments, "failed") == 399
  {
    var ps := MockPayments;
    TotalConcat([ps[0]], ps[1..], "completed");
    TotalConcat([ps[1]], [ps[2]], "completed");
    TotalConcat([ps[0]], ps[1..], "pending");
    TotalConcat([ps[1]], [ps[2]], "pending");
    TotalConcat([ps[0]], ps[1..], "failed");
    TotalConcat([ps[1]], [ps[2]], "failed");
    assert ps == [ps[0]] + ps[1..] && ps[1..] == [ps[1]] + [ps[2]];
  }

  /** `{ ...payment, booking }`: every payment field, and the matched booking. */
  datatype EnrichedPayment = EnrichedPayment(payment: Payment, booking: Option<Booking>)

  /** The first booking whose id is the payment's `bookingId`. */
  function BookingFor(bs: seq<Booking>, p: Payment): (r: Option<Booking>)
    ensures r.Some? ==> r.value in bs && r.value.id == p.bookingId
    ensures r.None? <==> forall b :: b in bs ==> b.id != p.bookingId
  {
    Find(bs, (b: Booking) => b.id == p.bookingId)
  }

  /** `payments.map(...)` with a `find` in the bookings for each. */
  function Enrich(ps: seq<Payment>, bs: seq<Booking>): (r: seq<EnrichedPayment>)
    ensures |r| == |ps|
    ensures forall i :: 0 <= i < |ps| ==> r[i].payment == ps[i] && r[i].booking == BookingFor(bs, ps[i])
  {
    seq(|ps|, i requires 0 <= i < |ps| => EnrichedPayment(ps[i], BookingFor(bs, ps[i])))
  }

  /** The passenger column: the booking's passenger name, or "—" without a booking or a name. */
  function PassengerCell(e: EnrichedPayment): (cell: string)
    ensures e.booking.None? ==> cell == "—"
    ensures e.booking.Some? && e.booking.value.passengerName != "" ==> cell == e.booking.value.passengerName
    ensures e.booking.Some? && e.booking.value.passengerName == "" ==> cell == "—"
  {
    if e.booking.Some? && e.booking.value.passengerName != "" then e.booking.value.passengerName else "—"
  }

  /** On the mock tables every payment finds its booking, which costs what was paid. */
  lemma MockPaymentsAllMatched(i: nat)
    requires i < |MockPayments|
    ensures var e := Enrich(MockPayments, MockBookings)[i];
            e.booking.Some? && e.booking.value.totalAmount == e.payment.amount &&
            PassengerCell(e) == "John Doe"
  {
    var p := MockPayments[i];
    PaymentsMatchBookings(p);
    assert BookingFor(MockBookings, p) == BookingById(p.bookingId);
    var b := BookingById(p.bookingId).value;
    assert b.passengerName == "John Doe";
  }
}
