/** The incidents map page: it loads all reports from the listing
    endpoint, keeps those with both coordinates, places a marker for each
    report whose coordinates are truthy, and colours markers and status
    badges by status. */
module ReportsMap {
  import opened Js
  import opened Queries
  import opened Reports
  import Location
  import VerifyRole

  /** `data.filter(report => report.latitude !== null && report.longitude !== null)`. */
  function ValidReports(data: seq<Report>): (r: seq<Report>)
    ensures Sublist(r, data)
    ensures forall x :: x in r <==> x in data && HasCoordinates(x)
    ensures forall x :: multiset(r)[x] == if HasCoordinates(x) then multiset(data)[x] else 0
  {
    FilterSublist(data, HasCoordinatesFn());
    forall x ensures multiset(Filter(data, HasCoordinatesFn()))[x] == if HasCoordinates(x) then multiset(data)[x] else 0 {
      FilterMultiset(data, HasCoordinatesFn(), x);
    }
    Filter(data, HasCoordinatesFn())
  }

  /** The guard of the marker loop, `report.latitude && report.longitude`:
      both coordinates present and non-zero. */
  predicate PlacesMarker(r: Report)
  {
    r.latitude.Some? && r.latitude.value != 0.0 && r.longitude.Some? && r.longitude.value != 0.0
  }

  /** Every report that gets a marker is a valid report. */
  lemma MarkedAreValid(data: seq<Report>, x: Report)
    requires x in data && PlacesMarker(x)
    ensures x in ValidReports(data)
  {
  }

  /** A report on the equator or the prime meridian passes the filter but
      gets no marker. */
  lemma ZeroCoordinateUnmarked(data: seq<Report>, x: Report)
    requires x in data && HasCoordinates(x)
    requires x.latitude == Some(0.0) || x.longitude == Some(0.0)
    ensures x in ValidReports(data) && !PlacesMarker(x)
  {
  }

  /** `getMarkerColor`. */
  function MarkerColor(status: string): string
  {
    if status == "PENDING" then "#FFA500"
    else if status == "RESOLVED" then "#4ADE80"
    else if status == "REJECTED" then "#EF4444"
    else "#3FB1CE"
  }

  /** The colours the map uses, one per named status and one default. */
  lemma MarkerColors(status: string)
    ensures MarkerColor(status) == "#FFA500" <==> status == "PENDING"
    ensures MarkerColor(status) == "#4ADE80" <==> status == "RESOLVED"
    ensures MarkerColor(status) == "#EF4444" <==> status == "REJECTED"
    ensures MarkerColor(status) == "#3FB1CE" <==> status !in {"PENDING", "RESOLVED", "REJECTED"}
    ensures MarkerColor("IN_PROGRESS") == "#3FB1CE" && MarkerColor("DISMISSED") == "#3FB1CE"
  {
  }

  const BadgeSuffix := " text-white px-2 py-1 rounded-full text-xs font-medium"

  /** The background class `getStatusBadge` picks. */
  function BadgeBackground(status: string): string
  {
    if status == "PENDING" then "bg-yellow-500"
    else if status == "RESOLVED" then "bg-green-500"
    else if status == "REJECTED" then "bg-red-500"
    else "bg-blue-500"
  }

  /** `getStatusBadge`: the background class followed by the fixed classes. */
  function StatusBadge(status: string): (classes: string)
    ensures |classes| > |BadgeSuffix| && classes[|classes| - |BadgeSuffix|..] == BadgeSuffix
  {
    BadgeBackground(status) + BadgeSuffix
  }

  /** Badge and marker agree: two statuses share a badge exactly when they
      share a marker colour. */
  lemma {:induction false} BadgeMatchesColor(a: string, b: string)
    ensures StatusBadge(a) == StatusBadge(b) <==> MarkerColor(a) == MarkerColor(b)
  {
    BackgroundsDiffer();
    SuffixCancels(BadgeBackground(a), BadgeBackground(b), BadgeSuffix);
  }

  /** Appending the same suffix keeps different strings different. */
  lemma SuffixCancels(x: string, y: string, suffix: string)
    ensures x + suffix == y + suffix <==> x == y
  {
    if x + suffix == y + suffix {
      assert x == (x + suffix)[..|x|];
      assert y == (y + suffix)[..|y|];
    }
  }

  /** The badge for each status: yellow, green and red for the three named
      statuses, blue for every other one, each followed by the fixed classes. */
  lemma BadgeClasses(status: string)
    ensures StatusBadge(status) == "bg-yellow-500" + BadgeSuffix <==> status == "PENDING"
    ensures StatusBadge(status) == "bg-green-500" + BadgeSuffix <==> status == "RESOLVED"
    ensures StatusBadge(status) == "bg-red-500" + BadgeSuffix <==> status == "REJECTED"
    ensures StatusBadge(status) == "bg-blue-500" + BadgeSuffix <==> status !in {"PENDING", "RESOLVED", "REJECTED"}
  {
    BackgroundsDiffer();
    var bg := BadgeBackground(status);
    SuffixCancels(bg, "bg-yellow-500", BadgeSuffix);
    SuffixCancels(bg, "bg-green-500", BadgeSuffix);
    SuffixCancels(bg, "bg-red-500", BadgeSuffix);
    SuffixCancels(bg, "bg-blue-500", BadgeSuffix);
  }

  /** The four background classes are pairwise different. */
  lemma BackgroundsDiffer()
    ensures "bg-yellow-500" != "bg-green-500" && "bg-yellow-500" != "bg-red-500"
    ensures "bg-yellow-500" != "bg-blue-500" && "bg-green-500" != "bg-red-500"
    ensures "bg-green-500" != "bg-blue-500" && "bg-red-500" != "bg-blue-500"
    ensures "#FFA500" != "#4ADE80" && "#FFA500" != "#EF4444" && "#FFA500" != "#3FB1CE"
    ensures "#4ADE80" != "#EF4444" && "#4ADE80" != "#3FB1CE" && "#EF4444" != "#3FB1CE"
  {
    assert "bg-yellow-500"[3] == 'y' && "bg-green-500"[3] == 'g' && "bg-red-500"[3] == 'r' && "bg-blue-500"[3] == 'b';
    assert "#FFA500"[1] == 'F' && "#4ADE80"[1] == '4' && "#EF4444"[1] == 'E' && "#3FB1CE"[1] == '3';
  }

  /** `report.location || "Unknown location"`. */
  function LocationLabel(location: Option<string>): (shown: string)
    ensures shown != ""
    ensures shown == "Unknown location" || Some(shown) == location
    ensures location.Some? && location.value != "" ==> shown == location.value
  {
    if location.Some? && location.value != "" then location.value else "Unknown location"
  }

  /** How loading the reports went: the fetch threw, or a response came
      back with a status and a body that decoded (or threw on decoding). */
  datatype FetchOutcome = NetworkError(error: Thrown) | Response(status: int, body: Result<seq<Report>, Thrown>)

  const FetchFailedMessage := "Failed to fetch reports"
  const UnknownErrorMessage := "An unknown error occurred"
  const UnsupportedMessage := "Your browser does not support Mapbox GL"

  /** The text `setError` shows for a caught value. */
  function ErrorText(e: Thrown): (text: string)
    ensures e.ErrorObject? ==> text == e.message
    ensures e.NonError? ==> text == UnknownErrorMessage
  {
    match e
    case ErrorObject(message, _) => message
    case NonError => UnknownErrorMessage
  }

  /** The page's state. */
  class IncidentsMap {
    var reports: seq<Report>
    var loading: bool
    var error: Option<string>

    constructor ()
      ensures reports == [] && loading && error == None
    {
      reports := [];
      loading := true;
      error := None;
    }

    /** `fetchReports`. Loading ends in every case; on success the valid
        reports replace the list and the error clears; otherwise the list is
        kept and the error is shown. */
    method FetchReports(outcome: FetchOutcome)
      modifies this
      ensures !loading
      ensures outcome.NetworkError? ==> error == Some(ErrorText(outcome.error)) && reports == old(reports)
      ensures outcome.Response? && !IsOk(outcome.status) ==>
        error == Some(FetchFailedMessage) && reports == old(reports)
      ensures outcome.Response? && IsOk(outcome.status) && outcome.body.Err? ==>
        error == Some(ErrorText(outcome.body.error)) && reports == old(reports)
      ensures outcome.Response? && IsOk(outcome.status) && outcome.body.Ok? ==>
        error == None && reports == ValidReports(outcome.body.value)
    {
      loading := true;
      match outcome {
        case NetworkError(e) =>
          error := Some(ErrorText(e));
        case Response(status, body) =>
          if !IsOk(status) {
            error := Some(ErrorText(ErrorObject(FetchFailedMessage, None)));
          } else if body.Err? {
            error := Some(ErrorText(body.error));
          } else {
            reports := ValidReports(body.value);
            error := None;
          }
      }
      loading := false;
    }

    /** The mount effect: without map support the error is shown and no
        fetch is made, so the page stays loading. */
    method Mount(supported: bool, outcome: FetchOutcome)
      modifies this
      ensures !supported ==> error == Some(UnsupportedMessage) && reports == old(reports) && loading == old(loading)
      ensures supported ==> !loading
      ensures supported && outcome.NetworkError? ==> error == Some(ErrorText(outcome.error)) && reports == old(reports)
      ensures supported && outcome.Response? && !IsOk(outcome.status) ==>
        error == Some(FetchFailedMessage) && reports == old(reports)
      ensures supported && outcome.Response? && IsOk(outcome.status) && outcome.body.Err? ==>
        error == Some(ErrorText(outcome.body.error)) && reports == old(reports)
      ensures supported && outcome.Response? && IsOk(outcome.status) && outcome.body.Ok? ==>
        error == None && reports == ValidReports(outcome.body.value)
    {
      if !supported {
        error := Some(UnsupportedMessage);
        return;
      }
      FetchReports(outcome);
    }
  }

  /** The map shows what the location endpoint lists: the valid reports of
      the unfiltered listing are the located reports, in the same order. */
  lemma {:induction false} MapShowsLocations(lookup: VerifyRole.SessionLookup, rows: seq<Report>)
    requires lookup.Found? && lookup.session.Some?
    ensures ListReports(lookup, None, None, rows, Completed).Listed?
    ensures ValidReports(ListReports(lookup, None, None, rows, Completed).reports)
         == Location.GetLocations(rows, false).reports
  {
    var w := BuildWhere(None, None);
    assert w == Where(None, None);
    FilterAll(rows, MatchesFn(w));
    assert FindMany(rows, w) == SortDesc(rows, CreatedAt);
    FilterSortCommute(rows, CreatedAt, HasCoordinatesFn());
  }
}
