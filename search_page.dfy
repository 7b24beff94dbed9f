/** The flight search page, app/search/page.js: its initial fields from the
    URL, the validation and state flags of `handleSearch`, the formatting of
    the flights the API returns, and the upper-casing of the airport inputs. */
module SearchPage {
  import opened JsValues
  import opened JsStrings
  import opened Responses
  import QueryParams
  import ApiService

  /** `Math.floor(d / 60)`: Dafny's division by a positive divisor rounds down. */
  function FloorDiv60(d: int): int
  {
    d / 60
  }

  /** `d % 60` in JavaScript: the remainder takes the sign of `d`. */
  function JsRem60(d: int): (r: int)
    ensures d >= 0 ==> 0 <= r < 60 && r == d % 60
    ensures d < 0 ==> -60 < r <= 0
  {
    if d >= 0 then d % 60 else -((-d) % 60)
  }

  /** The duration text: hours, "h ", minutes without zero padding, "m". */
  function DurationText(d: int): string
  {
    IntToString(FloorDiv60(d)) + "h " + IntToString(JsRem60(d)) + "m"
  }

  /** 65 minutes read "1h 5m": the minutes are not padded. */
  lemma DurationExample()
    ensures DurationText(65) == "1h 5m"
    ensures DurationText(60) == "1h 0m"
  {
  }

  /** A negative duration mixes the floor and the truncating remainder: -5 minutes read "-1h -5m". */
  lemma NegativeDurationExample()
    ensures DurationText(-5) == "-1h -5m"
  {
    assert FloorDiv60(-5) == -1 && JsRem60(-5) == -5;
  }

  /** Reads a duration text back: digits, "h ", digits, "m". */
  function ParseDuration(s: string): Option<int>
  {
    if 'h' !in s then None
    else
      var i := QueryParams.IndexOf(s, 'h');
      if i + 2 < |s| && IsDigits(s[..i]) && s[i + 1] == ' ' && s[|s| - 1] == 'm' && IsDigits(s[i + 2..|s| - 1])
      then Some(ParseNat(s[..i]) * 60 + ParseNat(s[i + 2..|s| - 1]))
      else None
  }

  lemma DigitsHaveNoH(s: string)
    requires IsDigits(s)
    ensures 'h' !in s
  {
  }

  /** For a non-negative number of minutes the text loses nothing: it reads back as the same duration. */
  lemma DurationReadBack(d: int)
    requires d >= 0
    ensures ParseDuration(DurationText(d)) == Some(d)
  {
    var hours := NatToString(d / 60);
    var minutes := NatToString(d % 60);
    var s := DurationText(d);
    assert s == hours + ['h'] + (" " + minutes + "m");
    DigitsHaveNoH(hours);
    QueryParams.IndexOfAfter(hours, 'h', " " + minutes + "m");
    var i := |hours|;
    assert s[..i] == hours;
    assert s[i + 2..|s| - 1] == minutes;
    ParseNatToString(d / 60);
    ParseNatToString(d % 60);
  }

  const DefaultAircraft := "Boeing 737-800"

  /** Without a duration both halves are computed from `undefined`, which is NaN. */
  const MissingDurationText := "NaNh NaNm"

  /** A flight as the page lists it; the formatted departure and arrival times are not modelled. */
  datatype ListedFlight = ListedFlight(id: string, airline: Option<string>, flightNumber: Option<string>,
                                       origin: string, destination: string, duration: string,
                                       price: Option<int>, availableSeats: Option<int>, aircraft: string)

  /** One flight at position `index`: the id falls back to "FL" + (index + 1), the
      price is the base price, the aircraft is fixed; a flight without a
      duration reads "NaNh NaNm". */
  function FormatFlight(raw: RawFlight, index: nat): (f: ListedFlight)
    ensures f.id == OptOrElse(raw.mongoId, "FL" + NatToString(index + 1))
    ensures f.price == raw.basePrice && f.availableSeats == raw.seatsAvailable
    ensures f.origin == Text(raw.origin) && f.destination == Text(raw.destination)
    ensures raw.duration.Some? ==> f.duration == DurationText(raw.duration.value)
    ensures raw.duration.None? ==> f.duration == MissingDurationText
    ensures f.aircraft == DefaultAircraft
  {
    ListedFlight(OptOrElse(raw.mongoId, "FL" + NatToString(index + 1)), raw.airline, raw.flightNumber,
                 Text(raw.origin), Text(raw.destination),
                 (match raw.duration case Some(d) => DurationText(d) case None => MissingDurationText),
                 raw.basePrice, raw.seatsAvailable, DefaultAircraft)
  }

  /** `response.data.flights.map((flight, index) => ...)`: same length, same order. */
  function FormatAll(raws: seq<RawFlight>): (fs: seq<ListedFlight>)
    ensures |fs| == |raws|
    ensures forall i :: 0 <= i < |raws| ==> fs[i] == FormatFlight(raws[i], i)
  {
    seq(|raws|, i requires 0 <= i < |raws| => FormatFlight(raws[i], i))
  }

  /** Without `_id`, the fallback ids differ from one another in a result list. */
  lemma FallbackIdsDistinct(raws: seq<RawFlight>, i: nat, j: nat)
    requires i < j < |raws|
    requires raws[i].mongoId.GetOr("") == "" && raws[j].mongoId.GetOr("") == ""
    ensures FormatAll(raws)[i].id != FormatAll(raws)[j].id
  {
    var fi := "FL" + NatToString(i + 1);
    var fj := "FL" + NatToString(j + 1);
    if fi == fj {
      assert fi[2..] == NatToString(i + 1) && fj[2..] == NatToString(j + 1);
      NatToStringInjective(i + 1, j + 1);
    }
  }

  const MissingFieldsMessage := "Please fill in all search fields"
  const NoResultsMessage := "No flights found for your search criteria"
  const SearchFailedMessage := "Failed to search flights"

  class SearchForm {
    var origin: string
    var destination: string
    var date: string
    var flights: seq<ListedFlight>
    var isSearching: bool
    var hasSearched: bool
    /** The `addToast(message, type)` calls, in order. */
    var notices: seq<(string, string)>
    var calls: seq<ApiService.Call>

    /** The fields start from the URL's `origin`, `destination` and `date`, or "". */
    constructor (params: seq<QueryParams.Pair>)
      ensures origin == OptOrElse(QueryParams.Get(params, "origin"), "")
      ensures destination == OptOrElse(QueryParams.Get(params, "destination"), "")
      ensures date == OptOrElse(QueryParams.Get(params, "date"), "")
      ensures flights == [] && !isSearching && !hasSearched && notices == [] && calls == []
    {
      origin := OptOrElse(QueryParams.Get(params, "origin"), "");
      destination := OptOrElse(QueryParams.Get(params, "destination"), "");
      date := OptOrElse(QueryParams.Get(params, "date"), "");
      flights := [];
      isSearching := false;
      hasSearched := false;
      notices := [];
      calls := [];
    }

    /** Typing into the airport inputs upper-cases the text. */
    method SetOrigin(text: string)
      modifies this
      ensures origin == Upper(text)
      ensures destination == old(destination) && date == old(date) && flights == old(flights)
      ensures isSearching == old(isSearching) && hasSearched == old(hasSearched)
      ensures notices == old(notices) && calls == old(calls)
    {
      origin := Upper(text);
    }

    method SetDestination(text: string)
      modifies this
      ensures destination == Upper(text)
      ensures origin == old(origin) && date == old(date) && flights == old(flights)
      ensures isSearching == old(isSearching) && hasSearched == old(hasSearched)
      ensures notices == old(notices) && calls == old(calls)
    {
      destination := Upper(text);
    }

    /** `handleSearch` up to its `await`. With a field empty it only raises an
        error toast; otherwise both flags go up and the search call is issued. */
    method StartSearch() returns (started: bool)
      modifies this
      ensures started <==> old(origin) != "" && old(destination) != "" && old(date) != ""
      ensures !started ==> notices == old(notices) + [(MissingFieldsMessage, "error")] && calls == old(calls)
      ensures !started ==> flights == old(flights) && isSearching == old(isSearching) && hasSearched == old(hasSearched)
      ensures started ==> isSearching && hasSearched && notices == old(notices) && flights == old(flights)
      ensures started ==> calls == old(calls) + [ApiService.SearchFlightsCall(origin, destination, date, None)]
      ensures origin == old(origin) && destination == old(destination) && date == old(date)
    {
      if origin == "" || destination == "" || date == "" {
        notices := notices + [(MissingFieldsMessage, "error")];
        return false;
      }
      isSearching := true;
      hasSearched := true;
      calls := calls + [ApiService.SearchFlightsCall(origin, destination, date, None)];
      return true;
    }

    /** `handleSearch` settles: the formatted list (with an info toast when it is
        empty), or an empty list and an error toast; `isSearching` drops either way. */
    method SettleSearch(outcome: Result<seq<RawFlight>, ApiService.CallError>)
      modifies this
      ensures !isSearching && hasSearched == old(hasSearched)
      ensures outcome.Ok? ==> flights == FormatAll(outcome.value)
      ensures outcome.Ok? ==> notices == old(notices) + (if outcome.value == [] then [(NoResultsMessage, "info")] else [])
      ensures outcome.Err? ==> flights == []
      ensures outcome.Err? ==> notices == old(notices) + [(OrElse(ApiService.ErrorMessage(outcome.error), SearchFailedMessage), "error")]
      ensures origin == old(origin) && destination == old(destination) && date == old(date) && calls == old(calls)
    {
      match outcome {
        case Ok(raws) =>
          var formatted := FormatAll(raws);
          flights := formatted;
          if |formatted| == 0 {
            notices := notices + [(NoResultsMessage, "info")];
          }
        case Err(e) =>
          notices := notices + [(OrElse(ApiService.ErrorMessage(e), SearchFailedMessage), "error")];
          flights := [];
      }
      isSearching := false;
    }

    /** The mount effect: a search is attempted when the URL names an origin or a destination. */
    method Mount(params: seq<QueryParams.Pair>) returns (attempted: bool, started: bool)
      modifies this
      ensures attempted <==> QueryParams.Get(params, "origin").GetOr("") != "" || QueryParams.Get(params, "destination").GetOr("") != ""
      ensures !attempted ==> !started && notices == old(notices) && calls == old(calls)
      ensures !started ==> isSearching == old(isSearching) && hasSearched == old(hasSearched) && flights == old(flights)
      ensures attempted ==> (started <==> old(origin) != "" && old(destination) != "" && old(date) != "")
      ensures attempted && !started ==> notices == old(notices) + [(MissingFieldsMessage, "error")] && calls == old(calls)
      ensures started ==> isSearching && hasSearched && notices == old(notices) && flights == old(flights)
      ensures started ==> calls == old(calls) + [ApiService.SearchFlightsCall(origin, destination, date, None)]
      ensures origin == old(origin) && destination == old(destination) && date == old(date)
    {
      attempted := QueryParams.Get(params, "origin").GetOr("") != "" || QueryParams.Get(params, "destination").GetOr("") != "";
      started := false;
      if attempted {
        started := StartSearch();
      }
    }
  }

  /** A link with an origin but no date starts the automatic search, which then
      fails validation: an error toast, and no call. */
  method AutoSearchWithoutDate(params: seq<QueryParams.Pair>) returns (page: SearchForm, started: bool)
    requires QueryParams.Get(params, "origin").GetOr("") != ""
    requires QueryParams.Get(params, "date").None?
    ensures !started && page.calls == [] && page.notices == [(MissingFieldsMessage, "error")]
    ensures !page.isSearching && !page.hasSearched
  {
    page := new SearchForm(params);
    var attempted;
    attempted, started := page.Mount(params);
  }
}
