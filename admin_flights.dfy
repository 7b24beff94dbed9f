/** The administrator's flights page, app/admin/flights/page.js: the flight
    list and its normalisation, the dialog form shared by "Add Flight" and
    "Edit", and the save handler. */
module AdminFlights {
  import opened JsValues
  import opened JsStrings
  import opened Responses
  import ApiService

  /** A flight as the page stores it. `availableSeats` is `None` where the
      normalised object has no such key. */
  datatype AdminFlight = AdminFlight(id: Option<string>, airline: string, flightNumber: string,
                                     origin: string, destination: string, departureTime: string,
                                     arrivalTime: string, price: int, availableSeats: Option<int>)

  /** The normalisation as written: `_id || id`, the strings or "", the price or
      0, and no `availableSeats` key at all. */
  function NormaliseAsWritten(raw: RawFlight): (f: AdminFlight)
    ensures f.id == OptOr(raw.mongoId, raw.id) && f.price == raw.price.GetOr(0)
    ensures f.availableSeats.None?
  {
    AdminFlight(OptOr(raw.mongoId, raw.id), OptOrElse(raw.airline, ""), OptOrElse(raw.flightNumber, ""),
                OptOrElse(raw.origin, ""), OptOrElse(raw.destination, ""), OptOrElse(raw.departureTime, ""),
                OptOrElse(raw.arrivalTime, ""), raw.price.GetOr(0), None)
  }

  /** The normalisation with `availableSeats: flight.availableSeats || 0`, as the
      page's earlier version had it; everything else is as written. */
  function Normalise(raw: RawFlight): (f: AdminFlight)
    ensures f.availableSeats == Some(raw.availableSeats.GetOr(0))
    ensures f == NormaliseAsWritten(raw).(availableSeats := f.availableSeats)
  {
    NormaliseAsWritten(raw).(availableSeats := Some(raw.availableSeats.GetOr(0)))
  }

  /** The `.map` at line 70 as written: no flight gets a seat count. */
  function NormaliseAll(raws: seq<RawFlight>): (fs: seq<AdminFlight>)
    ensures |fs| == |raws|
    ensures forall i :: 0 <= i < |raws| ==> fs[i] == NormaliseAsWritten(raws[i])
  {
    seq(|raws|, i requires 0 <= i < |raws| => NormaliseAsWritten(raws[i]))
  }

  /** The same `.map` with the seat count kept, as intended. */
  function CorrectedNormaliseAll(raws: seq<RawFlight>): (fs: seq<AdminFlight>)
    ensures |fs| == |raws|
    ensures forall i :: 0 <= i < |raws| ==> fs[i] == Normalise(raws[i])
  {
    seq(|raws|, i requires 0 <= i < |raws| => Normalise(raws[i]))
  }

  /** The list after `fetchFlights` as written: `res?.data?.flights || []`,
      mapped; a failed call, or a `.map` on a truthy non-array, ends in `catch` with []. */
  function FetchResult(outcome: Result<ListField<RawFlight>, ApiService.CallError>): (fs: seq<AdminFlight>)
    ensures outcome.Ok? && OrEmpty(outcome.value).Ok? ==> fs == NormaliseAll(OrEmpty(outcome.value).value)
    ensures outcome.Err? || OrEmpty(outcome.value).Err? ==> fs == []
  {
    if outcome.Err? then []
    else match OrEmpty(outcome.value)
         case Ok(raws) => NormaliseAll(raws)
         case Err(_) => []
  }

  /** The same fetch with the corrected normalisation. */
  function CorrectedFetchResult(outcome: Result<ListField<RawFlight>, ApiService.CallError>): (fs: seq<AdminFlight>)
    ensures outcome.Ok? && OrEmpty(outcome.value).Ok? ==> fs == CorrectedNormaliseAll(OrEmpty(outcome.value).value)
    ensures outcome.Err? || OrEmpty(outcome.value).Err? ==> fs == []
  {
    if outcome.Err? then []
    else match OrEmpty(outcome.value)
         case Ok(raws) => CorrectedNormaliseAll(raws)
         case Err(_) => []
  }

  /** The two fetches list the same flights in the same order and differ only in the seat count. */
  lemma CorrectedFetchOnlyAddsSeats(outcome: Result<ListField<RawFlight>, ApiService.CallError>)
    ensures |CorrectedFetchResult(outcome)| == |FetchResult(outcome)|
    ensures forall i :: 0 <= i < |FetchResult(outcome)| ==>
              FetchResult(outcome)[i] == CorrectedFetchResult(outcome)[i].(availableSeats := None)
  {
  }

  /** As written, no flight the page lists can be opened for editing. */
  lemma ListedFlightsNotEditable(outcome: Result<ListField<RawFlight>, ApiService.CallError>)
    ensures forall f :: f in FetchResult(outcome) ==> EditForm(f).Err?
  {
  }

  /** Corrected, every flight the page lists can be opened for editing. */
  lemma CorrectedFlightsEditable(outcome: Result<ListField<RawFlight>, ApiService.CallError>)
    ensures forall f :: f in CorrectedFetchResult(outcome) ==> EditForm(f).Ok?
  {
  }

  /** The eight text inputs of the dialog. */
  datatype FormFields = FormFields(airline: string, flightNumber: string, origin: string, destination: string,
                                   departureTime: string, arrivalTime: string, price: string, availableSeats: string)

  const EmptyForm := FormFields("", "", "", "", "", "", "", "")

  const DefaultAircraft := "Boeing 737-800"
  const DefaultDuration := "3h 00m"

  /** `flightData`: the inputs, the price and seats through `Number`, and the fixed aircraft and duration. */
  function FlightData(form: FormFields): ApiService.Json
  {
    ApiService.JObject([("airline", ApiService.JString(form.airline)),
                        ("flightNumber", ApiService.JString(form.flightNumber)),
                        ("origin", ApiService.JString(form.origin)),
                        ("destination", ApiService.JString(form.destination)),
                        ("departureTime", ApiService.JString(form.departureTime)),
                        ("arrivalTime", ApiService.JString(form.arrivalTime)),
                        ("price", ApiService.JNumberOf(form.price)),
                        ("availableSeats", ApiService.JNumberOf(form.availableSeats)),
                        ("aircraft", ApiService.JString(DefaultAircraft)),
                        ("duration", ApiService.JString(DefaultDuration))])
  }

  /** A field whose key no earlier field has is the one a lookup finds. */
  lemma {:induction false} FirstFieldAt(fields: seq<(string, ApiService.Json)>, i: nat)
    requires i < |fields|
    requires forall j :: 0 <= j < i ==> fields[j].0 != fields[i].0
    ensures ApiService.FirstField(fields, fields[i].0) == Some(fields[i].1)
  {
    if i > 0 {
      assert fields[1..][i - 1] == fields[i];
      FirstFieldAt(fields[1..], i - 1);
    }
  }

  /** The keys of `flightData`, in order. */
  const FlightDataKeys := ["airline", "flightNumber", "origin", "destination", "departureTime", "arrivalTime",
                           "price", "availableSeats", "aircraft", "duration"]

  lemma FlightDataKeysOrder(form: FormFields)
    ensures |FlightData(form).fields| == |FlightDataKeys|
    ensures forall j :: 0 <= j < |FlightDataKeys| ==> FlightData(form).fields[j].0 == FlightDataKeys[j]
  {
  }

  /** Position `i` of `flightData` holds the first field with its key. */
  lemma FlightDataAt(form: FormFields, i: nat)
    requires i < |FlightDataKeys|
    requires forall j :: 0 <= j < i ==> FlightDataKeys[j] != FlightDataKeys[i]
    ensures ApiService.Field(FlightData(form), FlightDataKeys[i]) == Some(FlightData(form).fields[i].1)
  {
    FlightDataKeysOrder(form);
    FirstFieldAt(FlightData(form).fields, i);
  }

  lemma FlightDataKeysDistinct()
    ensures forall i, j :: 0 <= j < i < |FlightDataKeys| ==> FlightDataKeys[j] != FlightDataKeys[i]
  {
    var ks := FlightDataKeys;
    assert ks[0][0] == 'a' && ks[1][0] == 'f' && ks[2][0] == 'o' && ks[3][0] == 'd' && ks[4][0] == 'd';
    assert ks[5][0] == 'a' && ks[6][0] == 'p' && ks[7][0] == 'a' && ks[8][0] == 'a' && ks[9][0] == 'd';
    assert |ks[0]| == 7 && |ks[1]| == 12 && |ks[2]| == 6 && |ks[3]| == 11 && |ks[4]| == 13;
    assert |ks[5]| == 11 && |ks[6]| == 5 && |ks[7]| == 14 && |ks[8]| == 8 && |ks[9]| == 8;
    assert ks[8][1] != ks[9][1];
  }

  /** The body sends the price and seat count typed into the form, and always the default aircraft and duration. */
  lemma FlightDataFields(form: FormFields)
    ensures ApiService.Field(FlightData(form), "price") == Some(ApiService.JNumberOf(form.price))
    ensures ApiService.Field(FlightData(form), "availableSeats") == Some(ApiService.JNumberOf(form.availableSeats))
    ensures ApiService.Field(FlightData(form), "aircraft") == Some(ApiService.JString(DefaultAircraft))
    ensures ApiService.Field(FlightData(form), "duration") == Some(ApiService.JString(DefaultDuration))
  {
    FlightDataKeysDistinct();
    FlightDataAt(form, 6);
    FlightDataAt(form, 7);
    FlightDataAt(form, 8);
    FlightDataAt(form, 9);
  }

  /** The call the save handler makes: an update of the flight being edited, or a creation. */
  function SaveCall(editing: Option<AdminFlight>, form: FormFields): (c: ApiService.Call)
    ensures editing.Some? ==> c == ApiService.UpdateFlightCall(editing.value.id, FlightData(form))
    ensures editing.None? ==> c == ApiService.CreateFlightCall(FlightData(form))
  {
    if editing.Some? then ApiService.UpdateFlightCall(editing.value.id, FlightData(form))
    else ApiService.CreateFlightCall(FlightData(form))
  }

  /** `openEditDialog` on `f`: the prefilled inputs, or the error
      `f.availableSeats.toString()` raises when `f` has no seat count. */
  function EditForm(f: AdminFlight): (r: Result<FormFields, string>)
    ensures r.Ok? <==> f.availableSeats.Some?
    ensures r.Ok? ==> r.value.price == IntToString(f.price) && r.value.availableSeats == IntToString(f.availableSeats.value)
    ensures r.Ok? ==> r.value.airline == f.airline && r.value.flightNumber == f.flightNumber
    ensures r.Ok? ==> r.value.origin == f.origin && r.value.destination == f.destination
    ensures r.Ok? ==> r.value.departureTime == f.departureTime && r.value.arrivalTime == f.arrivalTime
  {
    if f.availableSeats.None? then Err("TypeError")
    else Ok(FormFields(f.airline, f.flightNumber, f.origin, f.destination, f.departureTime, f.arrivalTime,
                       IntToString(f.price), IntToString(f.availableSeats.value)))
  }

  class AdminFlightsPage {
    var flights: seq<AdminFlight>
    var loading: bool
    var isCreating: bool
    var isDialogOpen: bool
    var editingFlight: Option<AdminFlight>
    var form: FormFields
    var calls: seq<ApiService.Call>

    constructor ()
      ensures flights == [] && loading && !isCreating && !isDialogOpen && editingFlight.None?
      ensures form == EmptyForm && calls == []
    {
      flights := [];
      loading := true;
      isCreating := false;
      isDialogOpen := false;
      editingFlight := None;
      form := EmptyForm;
      calls := [];
    }

    /** `fetchFlights` up to its `await`. */
    method StartFetch()
      modifies this
      ensures loading && calls == old(calls) + [ApiService.AllFlightsCall([])]
      ensures flights == old(flights) && isCreating == old(isCreating) && isDialogOpen == old(isDialogOpen)
      ensures editingFlight == old(editingFlight) && form == old(form)
    {
      loading := true;
      calls := calls + [ApiService.AllFlightsCall([])];
    }

    /** `fetchFlights` settles as written; it never throws to its caller, and
        the flights it lists carry no seat count. */
    method SettleFetch(outcome: Result<ListField<RawFlight>, ApiService.CallError>)
      modifies this
      ensures flights == FetchResult(outcome) && !loading && calls == old(calls)
      ensures forall f :: f in flights ==> f.availableSeats.None?
      ensures isCreating == old(isCreating) && isDialogOpen == old(isDialogOpen)
      ensures editingFlight == old(editingFlight) && form == old(form)
    {
      flights := FetchResult(outcome);
      loading := false;
    }

    /** `fetchFlights` settling with the seat count kept, as intended: every
        listed flight can then be edited. */
    method SettleCorrectedFetch(outcome: Result<ListField<RawFlight>, ApiService.CallError>)
      modifies this
      ensures flights == CorrectedFetchResult(outcome) && !loading && calls == old(calls)
      ensures forall f :: f in flights ==> EditForm(f).Ok?
      ensures isCreating == old(isCreating) && isDialogOpen == old(isDialogOpen)
      ensures editingFlight == old(editingFlight) && form == old(form)
    {
      flights := CorrectedFetchResult(outcome);
      CorrectedFlightsEditable(outcome);
      loading := false;
    }

    /** `resetForm`: empty inputs, no flight being edited. The "Add Flight"
        button runs it too; that button is also the dialog's trigger, and the
        opening it causes is the dialog component's own behaviour, which is not
        modelled, so the dialog flag is left as it was. */
    method ResetForm()
      modifies this
      ensures form == EmptyForm && editingFlight.None?
      ensures flights == old(flights) && loading == old(loading) && isCreating == old(isCreating)
      ensures isDialogOpen == old(isDialogOpen) && calls == old(calls)
    {
      form := EmptyForm;
      editingFlight := None;
    }

    /** `openEditDialog(f)`. The setters run in order, so when `f` has no seat
        count the flight and all inputs but the seats are already set when the
        call throws, and the dialog stays as it was. */
    method OpenEditDialog(f: AdminFlight) returns (r: Result<FormFields, string>)
      modifies this
      ensures r == EditForm(f) && editingFlight == Some(f)
      ensures r.Ok? ==> form == r.value && isDialogOpen
      ensures r.Err? ==> form == FormFields(f.airline, f.flightNumber, f.origin, f.destination, f.departureTime,
                                           f.arrivalTime, IntToString(f.price), old(form).availableSeats)
      ensures r.Err? ==> isDialogOpen == old(isDialogOpen)
      ensures flights == old(flights) && loading == old(loading) && isCreating == old(isCreating) && calls == old(calls)
    {
      editingFlight := Some(f);
      form := FormFields(f.airline, f.flightNumber, f.origin, f.destination, f.departureTime,
                         f.arrivalTime, IntToString(f.price), form.availableSeats);
      if f.availableSeats.None? {
        return Err("TypeError");
      }
      form := form.(availableSeats := IntToString(f.availableSeats.value));
      isDialogOpen := true;
      r := Ok(form);
    }

    /** `handleSubmit` up to its first `await`: the save call for the current form. */
    method StartSave()
      modifies this
      ensures isCreating && calls == old(calls) + [SaveCall(editingFlight, form)]
      ensures flights == old(flights) && loading == old(loading) && isDialogOpen == old(isDialogOpen)
      ensures editingFlight == old(editingFlight) && form == old(form)
    {
      isCreating := true;
      calls := calls + [SaveCall(editingFlight, form)];
    }

    /** `handleSubmit` settles. A saved flight refetches the list (with `refetch`
        as that fetch's outcome), closes the dialog and resets the form; a failed
        save only leaves the creating state. */
    method SettleSave(saved: bool, refetch: Result<ListField<RawFlight>, ApiService.CallError>)
      modifies this
      ensures !isCreating
      ensures saved ==> flights == FetchResult(refetch) && !loading && !isDialogOpen
      ensures saved ==> form == EmptyForm && editingFlight.None? && calls == old(calls) + [ApiService.AllFlightsCall([])]
      ensures !saved ==> flights == old(flights) && loading == old(loading) && isDialogOpen == old(isDialogOpen)
      ensures !saved ==> form == old(form) && editingFlight == old(editingFlight) && calls == old(calls)
    {
      if saved {
        StartFetch();
        SettleFetch(refetch);
        isDialogOpen := false;
        ResetForm();
      }
      isCreating := false;
    }
  }

  /** "Edit" on a flight, then "Save" in the dialog when it opened. A flight with
      a seat count sends an update of itself with its own price and seats; one
      without leaves the dialog as it was and sends nothing. */
  method EditAndSave(page: AdminFlightsPage, f: AdminFlight)
    modifies page
    ensures f.availableSeats.Some? ==> page.isDialogOpen && page.isCreating
    ensures f.availableSeats.Some? ==> page.calls == old(page.calls) + [ApiService.UpdateFlightCall(f.id, FlightData(page.form))]
    ensures f.availableSeats.Some? ==>
              ApiService.Field(FlightData(page.form), "price") == Some(ApiService.JNumberOf(IntToString(f.price))) &&
              ApiService.Field(FlightData(page.form), "availableSeats") == Some(ApiService.JNumberOf(IntToString(f.availableSeats.value)))
    ensures f.availableSeats.None? ==> page.isDialogOpen == old(page.isDialogOpen) && page.calls == old(page.calls)
  {
    var r := page.OpenEditDialog(f);
    if r.Ok? {
      page.StartSave();
      FlightDataFields(page.form);
    }
  }

  /** After "Add Flight" a stale edit does not leak into the save: a new flight is created from empty inputs. */
  method AddAfterEdit(page: AdminFlightsPage, f: AdminFlight)
    modifies page
    ensures page.calls == old(page.calls) + [ApiService.CreateFlightCall(FlightData(EmptyForm))]
  {
    var r := page.OpenEditDialog(f);
    page.ResetForm();
    page.StartSave();
  }

  /** As written: after the page loads a non-empty list, "Edit" on any listed
      flight throws; the dialog stays closed and only the fetch was sent. */
  method EditFetchedFlightAsWritten(raws: seq<RawFlight>, i: nat) returns (dialogOpen: bool, calls: seq<ApiService.Call>)
    requires i < |raws|
    ensures !dialogOpen && calls == [ApiService.AllFlightsCall([])]
  {
    var page := new AdminFlightsPage();
    page.StartFetch();
    page.SettleFetch(Ok(Items(raws)));
    var r := page.OpenEditDialog(page.flights[i]);
    dialogOpen := page.isDialogOpen;
    calls := page.calls;
  }

  /** Corrected: the same flight opens with its own seat count prefilled. */
  method EditFetchedFlight(raws: seq<RawFlight>, i: nat) returns (dialogOpen: bool, seats: string)
    requires i < |raws|
    ensures dialogOpen && seats == IntToString(raws[i].availableSeats.GetOr(0))
  {
    var page := new AdminFlightsPage();
    page.StartFetch();
    page.SettleCorrectedFetch(Ok(Items(raws)));
    var r := page.OpenEditDialog(page.flights[i]);
    dialogOpen := page.isDialogOpen;
    seats := page.form.availableSeats;
  }
}
