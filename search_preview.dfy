/** The home page's quick search, app/_component/home/searchPreview.js: the
    filled-in fields become the query string of "/search", which the search
    page reads back into its own fields. */
module SearchPreview {
  import opened JsValues
  import opened JsStrings
  import QueryParams
  import ApiService
  import SearchPage

  /** The parameters `handleSearch` sets: only the non-empty fields, in the order origin, destination, date. */
  function PreviewParams(origin: string, destination: string, date: string): (ps: seq<QueryParams.Pair>)
    ensures QueryParams.Get(ps, "origin") == (if origin != "" then Some(origin) else None)
    ensures QueryParams.Get(ps, "destination") == (if destination != "" then Some(destination) else None)
    ensures QueryParams.Get(ps, "date") == (if date != "" then Some(date) else None)
  {
    (if origin != "" then [("origin", origin)] else []) +
    (if destination != "" then [("destination", destination)] else []) +
    (if date != "" then [("date", date)] else [])
  }

  /** The pushed URL: "/search?" and the serialised parameters. */
  function PreviewTarget(origin: string, destination: string, date: string): (url: string)
    ensures |url| >= 8 && url[..8] == "/search?"
  {
    "/search?" + QueryParams.Serialize(PreviewParams(origin, destination, date))
  }

  /** With every field empty the quick search goes to "/search?". */
  lemma EmptyPreviewTarget()
    ensures PreviewTarget("", "", "") == "/search?"
  {
    QueryParams.SerializeEmpty([]);
  }

  class PreviewForm {
    var origin: string
    var destination: string
    var date: string
    var navigations: seq<string>

    constructor ()
      ensures origin == "" && destination == "" && date == "" && navigations == []
    {
      origin := "";
      destination := "";
      date := "";
      navigations := [];
    }

    /** `handleSearch`: sets each filled-in field on a fresh parameter list and pushes the URL. */
    method HandleSearch()
      modifies this
      ensures navigations == old(navigations) + [PreviewTarget(origin, destination, date)]
      ensures origin == old(origin) && destination == old(destination) && date == old(date)
    {
      var params: seq<QueryParams.Pair> := [];
      if origin != "" {
        params := params + [("origin", origin)];
      }
      if destination != "" {
        params := params + [("destination", destination)];
      }
      if date != "" {
        params := params + [("date", date)];
      }
      assert params == PreviewParams(origin, destination, date);
      navigations := navigations + ["/search?" + QueryParams.Serialize(params)];
    }
  }

  /** A value that the unencoded query string carries unchanged. */
  predicate PlainValue(v: string)
  {
    '&' !in v
  }

  /** The search page reads back exactly what the quick search had, without
      upper-casing it; an empty field arrives as "". */
  lemma PreviewReadBack(origin: string, destination: string, date: string)
    requires PlainValue(origin) && PlainValue(destination) && PlainValue(date)
    ensures var ps := QueryParams.Parse(PreviewTarget(origin, destination, date)[8..]);
            OptOrElse(QueryParams.Get(ps, "origin"), "") == origin &&
            OptOrElse(QueryParams.Get(ps, "destination"), "") == destination &&
            OptOrElse(QueryParams.Get(ps, "date"), "") == date
  {
    var sent := PreviewParams(origin, destination, date);
    assert forall p :: p in sent ==> QueryParams.Plain(p);
    QueryParams.ParseSerialize(sent);
    assert PreviewTarget(origin, destination, date)[8..] == QueryParams.Serialize(sent);
  }

  /** A complete quick search lands on a search page that searches at once,
      for the same three values and one passenger. */
  method QuickSearchStartsSearch(origin: string, destination: string, date: string)
    returns (page: SearchPage.SearchForm, started: bool)
    requires origin != "" && destination != "" && date != ""
    requires PlainValue(origin) && PlainValue(destination) && PlainValue(date)
    ensures started && page.isSearching
    ensures page.calls == [ApiService.SearchFlightsCall(origin, destination, date, None)]
  {
    var target := PreviewTarget(origin, destination, date);
    PreviewReadBack(origin, destination, date);
    var params := QueryParams.Parse(target[8..]);
    page := new SearchPage.SearchForm(params);
    var attempted;
    attempted, started := page.Mount(params);
  }

  /** A quick search with only an origin also triggers the automatic search,
      which fails for want of a date: the visitor sees the error toast. */
  method OriginOnlyQuickSearch(origin: string) returns (page: SearchPage.SearchForm, started: bool)
    requires origin != "" && PlainValue(origin)
    ensures !started && page.calls == []
    ensures page.notices == [(SearchPage.MissingFieldsMessage, "error")]
  {
    var target := PreviewTarget(origin, "", "");
    PreviewReadBack(origin, "", "");
    var params := QueryParams.Parse(target[8..]);
    page := new SearchPage.SearchForm(params);
    var attempted;
    attempted, started := page.Mount(params);
  }
}
