/** The administrator's bookings page, app/admin/bookings/page.js: the
    source list and its normalisation, the status counts, when cancel is
    offered, and the cancel handler, which refetches rather than editing the
    list. */
module AdminBookings {
  import opened JsValues
  import opened JsStrings
  import opened Lists
  import opened Responses
  import ApiService
  import UserBookings

  datatype FlightBrief = FlightBrief(flightNumber: string, origin: string, destination: string)

  datatype AdminBooking = AdminBooking(id: Option<string>, passengerName: string, passengerEmail: string,
                                       flight: FlightBrief, status: string, paymentStatus: string,
                                       totalAmount: int)

  /** `Array.isArray(data) ? data : data?.bookings || []` and the `.map` over it,
      which throws on a truthy non-array. */
  function Source(body: BookingsBody<RawBooking>): (r: Result<seq<RawBooking>, string>)
    ensures body.ArrayBody? ==> r == Ok(body.items)
    ensures body.ObjectBody? ==> r == OrEmpty(body.bookings)
  {
    match body
    case ArrayBody(xs) => Ok(xs)
    case ObjectBody(f) => OrEmpty(f)
  }

  function Normalise(raw: RawBooking): (b: AdminBooking)
    ensures b.id == OptOr(raw.mongoId, raw.id)
    ensures b.status == LowerOrPending(raw.status) && b.paymentStatus == LowerOrPending(raw.paymentStatus)
    ensures b.totalAmount == raw.totalAmount.GetOr(0)
  {
    var fl := FlightOf(raw.flight);
    AdminBooking(
      OptOr(raw.mongoId, raw.id),
      OptOrElse(raw.passengerName, ""),
      OptOrElse(raw.passengerEmail, ""),
      FlightBrief(OptOrElse(fl.flightNumber, ""), OptOrElse(fl.origin, ""), OptOrElse(fl.destination, "")),
      LowerOrPending(raw.status),
      LowerOrPending(raw.paymentStatus),
      raw.totalAmount.GetOr(0))
  }

  function NormaliseAll(raws: seq<RawBooking>): (bs: seq<AdminBooking>)
    ensures |bs| == |raws|
    ensures forall i :: 0 <= i < |raws| ==> bs[i] == Normalise(raws[i])
  {
    seq(|raws|, i requires 0 <= i < |raws| => Normalise(raws[i]))
  }

  /** The list after `fetchBookings`: a failed call or a throwing `.map` both end in `catch`, with []. */
  function FetchResult(outcome: Result<BookingsBody<RawBooking>, ApiService.CallError>): (bs: seq<AdminBooking>)
    ensures outcome.Ok? && Source(outcome.value).Ok? ==> bs == NormaliseAll(Source(outcome.value).value)
    ensures outcome.Err? || Source(outcome.value).Err? ==> bs == []
  {
    if outcome.Err? then []
    else match Source(outcome.value)
         case Ok(raws) => NormaliseAll(raws)
         case Err(_) => []
  }

  /** Both bookings pages end up listing the same source bookings, although they
      pick the list differently: where the user page tests for an array, the
      administrator page's `.map` throws and its `catch` empties the list. */
  lemma PagesListSameBookings(outcome: Result<BookingsBody<RawBooking>, ApiService.CallError>, now: string)
    ensures |FetchResult(outcome)| == |UserBookings.FetchResult(outcome, now)|
    ensures outcome.Ok? ==> FetchResult(outcome) == NormaliseAll(UserBookings.Source(outcome.value))
  {
  }

  /** `bookings.filter((b) => b.status === status).length`. */
  function Count(bs: seq<AdminBooking>, status: string): (r: nat)
    ensures r <= |bs|
    ensures r == 0 <==> forall b :: b in bs ==> b.status != status
  {
    var withStatus := (b: AdminBooking) => b.status == status;
    FilterEmptyIff(bs, withStatus);
    FilterLength(bs, withStatus);
    |Filter(bs, withStatus)|
  }

  /** The Confirmed, Pending and Cancelled cards never add up to more than Total. */
  lemma {:induction false} CountsBounded(bs: seq<AdminBooking>)
    ensures Count(bs, "confirmed") + Count(bs, "pending") + Count(bs, "cancelled") <= |bs|
  {
    if bs != [] {
      CountsBounded(bs[1..]);
    }
  }

  /** Cancel is offered for confirmed and pending bookings. */
  predicate CanCancel(b: AdminBooking)
    ensures CanCancel(b) ==> b.status != "cancelled"
  {
    b.status == "confirmed" || b.status == "pending"
  }

  /** The bookings offered a cancel are exactly those counted as Confirmed or Pending. */
  lemma {:induction false} OfferedIsConfirmedPlusPending(bs: seq<AdminBooking>)
    ensures |Filter(bs, CanCancel)| == Count(bs, "confirmed") + Count(bs, "pending")
  {
    if bs != [] {
      OfferedIsConfirmedPlusPending(bs[1..]);
    }
  }

  /** The administrator is offered a cancel wherever the traveller is, and also for pending bookings. */
  lemma OfferWiderThanUserPage(raw: RawBooking, now: string)
    ensures UserBookings.CanCancel(UserBookings.Normalise(raw, now)) ==> CanCancel(Normalise(raw))
    ensures CanCancel(Normalise(raw)) <==>
            UserBookings.CanCancel(UserBookings.Normalise(raw, now)) || Normalise(raw).status == "pending"
  {
  }

  /** The cancel button of a row is disabled while the slot holds that row's id. */
  predicate CancelDisabled(slot: UserBookings.CancelSlot, b: AdminBooking)
  {
    slot == UserBookings.Busy(b.id)
  }

  class AdminBookingsPage {
    var bookings: seq<AdminBooking>
    var loading: bool
    var cancelling: UserBookings.CancelSlot
    var calls: seq<ApiService.Call>

    constructor ()
      ensures bookings == [] && loading && cancelling == UserBookings.Idle && calls == []
    {
      bookings := [];
      loading := true;
      cancelling := UserBookings.Idle;
      calls := [];
    }

    /** `fetchBookings` up to its `await`. */
    method StartFetch()
      modifies this
      ensures loading && calls == old(calls) + [ApiService.AllBookingsCall()]
      ensures bookings == old(bookings) && cancelling == old(cancelling)
    {
      loading := true;
      calls := calls + [ApiService.AllBookingsCall()];
    }

    /** `fetchBookings` settles; it never throws to its caller. */
    method SettleFetch(outcome: Result<BookingsBody<RawBooking>, ApiService.CallError>)
      modifies this
      ensures bookings == FetchResult(outcome)
      ensures !loading && cancelling == old(cancelling) && calls == old(calls)
    {
      if outcome.Err? {
        bookings := [];
      } else {
        match Source(outcome.value) {
          case Ok(raws) => bookings := NormaliseAll(raws);
          case Err(_) => bookings := [];
        }
      }
      loading := false;
    }

    /** `handleCancelBooking` up to its `await`: only that row's button is disabled. */
    method StartCancel(bookingId: Option<string>)
      modifies this
      ensures cancelling == UserBookings.Busy(bookingId)
      ensures forall b :: CancelDisabled(cancelling, b) <==> b.id == bookingId
      ensures calls == old(calls) + [ApiService.CancelBookingCall(bookingId)]
      ensures bookings == old(bookings) && loading == old(loading)
    {
      cancelling := UserBookings.Busy(bookingId);
      calls := calls + [ApiService.CancelBookingCall(bookingId)];
    }

    /** `handleCancelBooking` settles. A successful cancel refetches the whole list
        (with `refetch` as that fetch's outcome); a failed one leaves everything as
        it was. No button is disabled afterwards. */
    method SettleCancel(succeeded: bool, refetch: Result<BookingsBody<RawBooking>, ApiService.CallError>)
      modifies this
      ensures succeeded ==> bookings == FetchResult(refetch) && !loading
      ensures succeeded ==> calls == old(calls) + [ApiService.AllBookingsCall()]
      ensures !succeeded ==> bookings == old(bookings) && loading == old(loading) && calls == old(calls)
      ensures cancelling == UserBookings.Idle
      ensures forall b :: !CancelDisabled(cancelling, b)
    {
      if succeeded {
        StartFetch();
        SettleFetch(refetch);
      }
      cancelling := UserBookings.Idle;
    }
  }
}
