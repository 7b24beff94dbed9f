/** The administrator's dashboard, app/admin/page.js: the revenue, pending
    payment and confirmed booking figures and the recent-bookings list that
    `fetchDashboardData` computes from the three parallel calls. */
module AdminDashboard {
  import opened JsValues
  import opened JsStrings
  import opened Lists
  import opened Responses
  import ApiService
  import AdminBookings

  datatype RecentBooking = RecentBooking(id: Option<string>, passengerName: string, flight: AdminBookings.FlightBrief,
                                         totalAmount: int, status: string)

  datatype Dashboard = Dashboard(recentBookings: seq<RecentBooking>, totalRevenue: int,
                                 confirmedBookings: nat, pendingPayments: nat)

  const InitialDashboard := Dashboard([], 0, 0, 0)

  predicate Succeeded(p: RawPayment)
  {
    p.status == Some("success")
  }

  function AmountOrZero(p: RawPayment): int
  {
    p.amount.GetOr(0)
  }

  /** `totalRevenue`: the amounts (missing ones as 0) of the successful payments. */
  function Revenue(ps: seq<RawPayment>): (r: int)
    ensures (forall p :: p in ps ==> !Succeeded(p)) ==> r == 0
  {
    FilterEmptyIff(ps, Succeeded);
    Sum(Filter(ps, Succeeded), AmountOrZero)
  }

  /** Revenue adds up payment by payment; only successful payments contribute. */
  lemma RevenueAppend(ps: seq<RawPayment>, p: RawPayment)
    ensures Revenue(ps + [p]) == Revenue(ps) + (if Succeeded(p) then AmountOrZero(p) else 0)
  {
    FilterConcat(ps, [p], Succeeded);
    SumConcat(Filter(ps, Succeeded), Filter([p], Succeeded), AmountOrZero);
    assert Filter([p], Succeeded) == if Succeeded(p) then [p] else [];
  }

  /** With no negative amounts the revenue is never negative. */
  lemma RevenueNonNegative(ps: seq<RawPayment>)
    requires forall p :: p in ps ==> p.amount.GetOr(0) >= 0
    ensures Revenue(ps) >= 0
  {
    forall p | p in Filter(ps, Succeeded) ensures AmountOrZero(p) >= 0 {
      FilterMembers(ps, Succeeded, p);
    }
    SumNonNegative(Filter(ps, Succeeded), AmountOrZero);
  }

  /** `pendingPayments`: the number of payments with status "initiated". */
  function PendingPayments(ps: seq<RawPayment>): (r: nat)
    ensures r <= |ps|
    ensures r == 0 <==> forall p :: p in ps ==> p.status != Some("initiated")
  {
    var initiated := (p: RawPayment) => p.status == Some("initiated");
    FilterEmptyIff(ps, initiated);
    FilterLength(ps, initiated);
    |Filter(ps, initiated)|
  }

  /** `confirmedBookings`: the number of bookings with status exactly "confirmed". */
  function ConfirmedBookings(bs: seq<RawBooking>): (r: nat)
    ensures r <= |bs|
    ensures r == 0 <==> forall b :: b in bs ==> b.status != Some("confirmed")
  {
    var confirmed := (b: RawBooking) => b.status == Some("confirmed");
    FilterEmptyIff(bs, confirmed);
    FilterLength(bs, confirmed);
    |Filter(bs, confirmed)|
  }

  /** One recent booking: "N/A" for no passenger, "pending" for no status, which is not lower-cased. */
  function ToRecent(raw: RawBooking): (r: RecentBooking)
    ensures r.passengerName == OptOrElse(raw.passengerName, "N/A")
    ensures r.status == OptOrElse(raw.status, "pending")
    ensures r.totalAmount == raw.totalAmount.GetOr(0)
  {
    var fl := FlightOf(raw.flight);
    RecentBooking(
      OptOr(raw.mongoId, raw.id),
      OptOrElse(raw.passengerName, "N/A"),
      AdminBookings.FlightBrief(OptOrElse(fl.flightNumber, ""), OptOrElse(fl.origin, ""), OptOrElse(fl.destination, "")),
      raw.totalAmount.GetOr(0),
      OptOrElse(raw.status, "pending"))
  }

  /** `bookingsArray.slice(0, 5).map(...)`: the first five bookings at most, in order. */
  function Recent(bs: seq<RawBooking>): (r: seq<RecentBooking>)
    ensures |r| <= 5
    ensures |r| == if |bs| < 5 then |bs| else 5
    ensures forall i :: 0 <= i < |r| ==> r[i] == ToRecent(bs[i])
  {
    var first := Take(bs, 5);
    seq(|first|, i requires 0 <= i < |first| => ToRecent(first[i]))
  }

  /** The figures, from `paymentsData?.data?.payments` and `bookingsData?.data?.bookings`;
      `Err` when either is a truthy non-array and its `.filter` throws. */
  function Compute(payments: ListField<RawPayment>, bookings: ListField<RawBooking>): (r: Result<Dashboard, string>)
    ensures r.Ok? <==> OrEmpty(payments).Ok? && OrEmpty(bookings).Ok?
  {
    match (OrEmpty(payments), OrEmpty(bookings))
    case (Ok(ps), Ok(bs)) => Ok(Dashboard(Recent(bs), Revenue(ps), ConfirmedBookings(bs), PendingPayments(ps)))
    case _ => Err("TypeError")
  }

  /** Missing lists count as empty: no revenue, nothing pending, nothing recent. */
  lemma MissingListsAreEmpty()
    ensures Compute(Missing, Missing) == Ok(InitialDashboard)
  {
  }

  /** A booking whose status is "Confirmed" is shown with that status but is not
      counted as confirmed, since the dashboard compares without lower-casing:
      adding one to any list leaves the count as it was. */
  lemma CapitalisedStatusNotCounted(bs: seq<RawBooking>, raw: RawBooking)
    requires raw.status == Some("Confirmed")
    ensures ConfirmedBookings(bs + [raw]) == ConfirmedBookings(bs)
    ensures |bs| < 5 ==> Recent(bs + [raw])[|bs|].status == "Confirmed"
  {
    var p := (b: RawBooking) => b.status == Some("confirmed");
    assert "Confirmed"[0] != "confirmed"[0];
    FilterConcat(bs, [raw], p);
    FilterNonePass([raw], p);
  }

  /** The "Total Bookings" card shows the length of the recent list, never more than five,
      however many bookings there are. */
  lemma TotalBookingsCardCapped(bs: seq<RawBooking>)
    requires |bs| > 5
    ensures |Recent(bs)| == 5 < |bs|
  {
  }

  class DashboardPage {
    var loading: bool
    var data: Dashboard
    var calls: seq<ApiService.Call>

    constructor ()
      ensures loading && data == InitialDashboard && calls == []
    {
      loading := true;
      data := InitialDashboard;
      calls := [];
    }

    /** `fetchDashboardData` up to its `await`: the three calls issued together. */
    method StartFetch()
      modifies this
      ensures loading && data == old(data)
      ensures calls == old(calls) + [ApiService.AllFlightsCall([]), ApiService.AllBookingsCall(), ApiService.AllPaymentsCall()]
    {
      loading := true;
      calls := calls + [ApiService.AllFlightsCall([]), ApiService.AllBookingsCall(), ApiService.AllPaymentsCall()];
    }

    /** `fetchDashboardData` settles. `Promise.all` fails if any call fails; then,
        or when a computation throws, the figures stay as they were. */
    method SettleFetch(flightsOk: bool, bookings: Result<ListField<RawBooking>, ApiService.CallError>,
                       payments: Result<ListField<RawPayment>, ApiService.CallError>)
      modifies this
      ensures !loading && calls == old(calls)
      ensures flightsOk && bookings.Ok? && payments.Ok? && Compute(payments.value, bookings.value).Ok? ==>
                data == Compute(payments.value, bookings.value).value
      ensures !(flightsOk && bookings.Ok? && payments.Ok? && Compute(payments.value, bookings.value).Ok?) ==>
                data == old(data)
    {
      if flightsOk && bookings.Ok? && payments.Ok? {
        var r := Compute(payments.value, bookings.value);
        if r.Ok? {
          data := r.value;
        }
      }
      loading := false;
    }
  }

  /** A dashboard whose first load fails keeps its zero figures. */
  method FailedFirstLoad(bookings: Result<ListField<RawBooking>, ApiService.CallError>,
                         payments: Result<ListField<RawPayment>, ApiService.CallError>) returns (shown: Dashboard)
    requires bookings.Err? || payments.Err?
    ensures shown == InitialDashboard
  {
    var page := new DashboardPage();
    page.StartFetch();
    page.SettleFetch(true, bookings, payments);
    shown := page.data;
  }
}
