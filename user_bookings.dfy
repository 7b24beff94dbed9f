/** The traveller's bookings page, app/bookings/page.js: how `fetchBookings`
    picks and normalises the list, the local update after a successful
    cancel, the `cancellingId` slot and when cancel is offered. */
module UserBookings {
  import opened JsValues
  import opened JsStrings
  import opened Responses
  import ApiService

  datatype FlightSummary = FlightSummary(airline: string, flightNumber: string, origin: string, destination: string,
                                         departureTime: string, arrivalTime: string, duration: string)

  datatype Booking = Booking(id: Option<string>, flightId: Option<string>, flight: FlightSummary,
                             userId: Option<string>, passengerName: string, passengerEmail: string,
                             seatNumber: string, status: string, paymentStatus: string, totalAmount: int,
                             createdAt: string)

  /** `cancellingId`: null, or the id a cancel is in flight for (itself possibly undefined). */
  datatype CancelSlot = Idle | Busy(id: Option<string>)

  /** The array the page maps over: the body if it is an array, else its
      `bookings` if that is an array, else the empty list. */
  function Source(body: BookingsBody<RawBooking>): (r: seq<RawBooking>)
    ensures body.ArrayBody? ==> r == body.items
    ensures body.ObjectBody? && body.bookings.Items? ==> r == body.bookings.items
    ensures body.ObjectBody? && !body.bookings.Items? ==> r == []
  {
    match body
    case ArrayBody(xs) => xs
    case ObjectBody(f) => ArrayOrEmpty(f)
  }

  /** One booking with its defaults; `now` is `new Date().toISOString()`. */
  function Normalise(raw: RawBooking, now: string): (b: Booking)
    ensures b.id == OptOr(raw.mongoId, raw.id)
    ensures b.flightId == OptOr(FlightOf(raw.flight).mongoId, raw.flightId)
    ensures b.userId == OptOr(raw.userRefId, raw.userId)
    ensures b.status == LowerOrPending(raw.status) && b.paymentStatus == LowerOrPending(raw.paymentStatus)
    ensures b.totalAmount == raw.totalAmount.GetOr(0)
    ensures raw.createdAt.GetOr("") == "" ==> b.createdAt == now
  {
    var fl := FlightOf(raw.flight);
    Booking(
      OptOr(raw.mongoId, raw.id),
      OptOr(fl.mongoId, raw.flightId),
      FlightSummary(
        OptOrElse(fl.airline, ""),
        OptOrElse(fl.flightNumber, ""),
        OptOrElse(fl.origin, ""),
        OptOrElse(fl.destination, ""),
        OptOrElse(fl.departureTime, ""),
        OptOrElse(fl.arrivalTime, ""),
        OptOrElse(fl.duration, "")),
      OptOr(raw.userRefId, raw.userId),
      OptOrElse(raw.passengerName, ""),
      OptOrElse(raw.passengerEmail, ""),
      OptOrElse(raw.seatNumber, ""),
      LowerOrPending(raw.status),
      LowerOrPending(raw.paymentStatus),
      raw.totalAmount.GetOr(0),
      OptOrElse(raw.createdAt, now))
  }

  /** The `.map` over the source list: same length, same order. */
  function NormaliseAll(raws: seq<RawBooking>, now: string): (bs: seq<Booking>)
    ensures |bs| == |raws|
    ensures forall i :: 0 <= i < |raws| ==> bs[i] == Normalise(raws[i], now)
  {
    seq(|raws|, i requires 0 <= i < |raws| => Normalise(raws[i], now))
  }

  /** The list the page holds after a fetch settles: a failed fetch leaves it empty. */
  function FetchResult(outcome: Result<BookingsBody<RawBooking>, ApiService.CallError>, now: string): (bs: seq<Booking>)
    ensures outcome.Ok? ==> bs == NormaliseAll(Source(outcome.value), now)
    ensures outcome.Err? ==> bs == []
  {
    if outcome.Ok? then NormaliseAll(Source(outcome.value), now) else []
  }

  /** Every status the page holds is lower-case and non-empty. */
  lemma NormalisedStatusesLower(raws: seq<RawBooking>, now: string, b: Booking)
    requires b in NormaliseAll(raws, now)
    ensures b.status != "" && b.paymentStatus != ""
    ensures Lower(b.status) == b.status && Lower(b.paymentStatus) == b.paymentStatus
  {
    var i :| 0 <= i < |raws| && NormaliseAll(raws, now)[i] == b;
    LowerOrPendingIsLower(raws[i].status);
    LowerOrPendingIsLower(raws[i].paymentStatus);
  }

  /** The local update: the bookings whose id equals `id` become "cancelled". */
  function ApplyCancel(bs: seq<Booking>, id: Option<string>): (r: seq<Booking>)
    ensures |r| == |bs|
    ensures forall i :: 0 <= i < |bs| && bs[i].id == id ==> r[i] == bs[i].(status := "cancelled")
    ensures forall i :: 0 <= i < |bs| && bs[i].id != id ==> r[i] == bs[i]
  {
    seq(|bs|, i requires 0 <= i < |bs| => if bs[i].id == id then bs[i].(status := "cancelled") else bs[i])
  }

  /** Cancel is offered for confirmed bookings only. */
  predicate CanCancel(b: Booking)
    ensures CanCancel(b) ==> b.status != "cancelled" && b.status != "pending"
  {
    b.status == "confirmed"
  }

  /** Only `status` changes: ids, payment status, amounts and order stay as they were. */
  lemma ApplyCancelOnlyStatus(bs: seq<Booking>, id: Option<string>)
    ensures forall i :: 0 <= i < |bs| ==> ApplyCancel(bs, id)[i].(status := bs[i].status) == bs[i]
    ensures forall i :: 0 <= i < |bs| ==> ApplyCancel(bs, id)[i].paymentStatus == bs[i].paymentStatus
  {
  }

  /** A cancel for an id no booking has changes nothing. */
  lemma ApplyCancelAbsent(bs: seq<Booking>, id: Option<string>)
    requires forall b :: b in bs ==> b.id != id
    ensures ApplyCancel(bs, id) == bs
  {
  }

  /** Applying the same cancel twice is applying it once. */
  lemma ApplyCancelIdempotent(bs: seq<Booking>, id: Option<string>)
    ensures ApplyCancel(ApplyCancel(bs, id), id) == ApplyCancel(bs, id)
  {
  }

  /** After a cancel, the cancelled bookings are no longer offered a cancel,
      and the offer for every other booking is as before. */
  lemma CancelWithdrawsOffer(bs: seq<Booking>, id: Option<string>, i: nat)
    requires i < |bs|
    ensures bs[i].id == id ==> !CanCancel(ApplyCancel(bs, id)[i])
    ensures bs[i].id != id ==> (CanCancel(ApplyCancel(bs, id)[i]) <==> CanCancel(bs[i]))
  {
  }

  class BookingsPage {
    var bookings: seq<Booking>
    var loading: bool
    var cancelling: CancelSlot
    var calls: seq<ApiService.Call>

    constructor ()
      ensures bookings == [] && loading && cancelling == Idle && calls == []
    {
      bookings := [];
      loading := true;
      cancelling := Idle;
      calls := [];
    }

    /** `fetchBookings` up to its `await`. */
    method StartFetch()
      modifies this
      ensures loading && calls == old(calls) + [ApiService.MyBookingsCall()]
      ensures bookings == old(bookings) && cancelling == old(cancelling)
    {
      loading := true;
      calls := calls + [ApiService.MyBookingsCall()];
    }

    /** `fetchBookings` settles: the normalised list, or the empty list on failure. */
    method SettleFetch(outcome: Result<BookingsBody<RawBooking>, ApiService.CallError>, now: string)
      modifies this
      ensures bookings == FetchResult(outcome, now)
      ensures !loading && cancelling == old(cancelling) && calls == old(calls)
    {
      if outcome.Ok? {
        var transformed := NormaliseAll(Source(outcome.value), now);
        bookings := transformed;
        bookings := transformed;
      } else {
        bookings := [];
      }
      loading := false;
    }

    /** `handleCancelBooking` up to its `await`: the slot holds the id. */
    method StartCancel(bookingId: Option<string>)
      modifies this
      ensures cancelling == Busy(bookingId)
      ensures calls == old(calls) + [ApiService.CancelBookingCall(bookingId)]
      ensures bookings == old(bookings) && loading == old(loading)
    {
      cancelling := Busy(bookingId);
      calls := calls + [ApiService.CancelBookingCall(bookingId)];
    }

    /** `handleCancelBooking` settles: the local update on success, nothing on
        failure, and the slot is free again either way. */
    method SettleCancel(bookingId: Option<string>, succeeded: bool)
      modifies this
      ensures bookings == if succeeded then ApplyCancel(old(bookings), bookingId) else old(bookings)
      ensures cancelling == Idle
      ensures loading == old(loading) && calls == old(calls)
    {
      if succeeded {
        bookings := ApplyCancel(bookings, bookingId);
      }
      cancelling := Idle;
    }
  }
}
