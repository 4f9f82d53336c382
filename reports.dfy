/** The report listing endpoint `GET /api/reports`: a session gate, an
    optional status and type filter, newest-first ordering, and a mapping
    from database error codes to HTTP statuses. The store is a snapshot
    sequence of report rows. */
module Reports {
  import opened Js
  import opened Queries
  import VerifyRole

  /** A report row with the columns the endpoint selects. */
  datatype Report = Report(id: string, reportId: string, reportType: string, title: string,
                           description: string, location: Option<string>,
                           latitude: Option<real>, longitude: Option<real>, image: Option<string>,
                           status: string, createdAt: int, updatedAt: int)

  function CreatedAt(r: Report): int { r.createdAt }

  /** Both coordinates are non-null. */
  predicate HasCoordinates(r: Report)
  {
    r.latitude.Some? && r.longitude.Some?
  }

  function HasCoordinatesFn(): Report -> bool
  {
    (r: Report) => HasCoordinates(r)
  }

  /** The `where` object: the status and type a report must have, when set. */
  datatype Where = Where(status: Option<string>, reportType: Option<string>)

  /** `...(param && { key: param })`: a query parameter becomes a condition
      only when present and non-empty. */
  function Applied(param: Option<string>): (w: Option<string>)
    ensures w.Some? <==> param.Some? && param.value != ""
    ensures w.Some? ==> w == param
  {
    if param.Some? && param.value != "" then param else None
  }

  /** The `where` object built from the `status` and `type` parameters. */
  function BuildWhere(status: Option<string>, reportType: Option<string>): Where
  {
    Where(Applied(status), Applied(reportType))
  }

  /** A report satisfies every condition of `w`. */
  predicate Matches(w: Where, r: Report)
  {
    (w.status.None? || r.status == w.status.value)
    && (w.reportType.None? || r.reportType == w.reportType.value)
  }

  function MatchesFn(w: Where): Report -> bool
  {
    (r: Report) => Matches(w, r)
  }

  /** `findMany({ where, orderBy: { createdAt: "desc" } })`: the matching
      rows, each as often as stored, newest first. */
  function FindMany(rows: seq<Report>, w: Where): (r: seq<Report>)
    ensures SortedDesc(r, CreatedAt)
    ensures forall x :: x in r <==> x in rows && Matches(w, x)
    ensures forall x :: multiset(r)[x] == if Matches(w, x) then multiset(rows)[x] else 0
  {
    var kept := Filter(rows, MatchesFn(w));
    forall x ensures multiset(kept)[x] == if Matches(w, x) then multiset(rows)[x] else 0 {
      FilterMultiset(rows, MatchesFn(w), x);
    }
    assert multiset(SortDesc(kept, CreatedAt)) == multiset(kept);
    assert forall x :: x in SortDesc(kept, CreatedAt) <==> x in multiset(kept);
    SortDesc(kept, CreatedAt)
  }

  /** How the raced query came out: the rows, a rejection by the store, or
      the 15-second timer winning the race. */
  datatype QueryOutcome = Completed | StoreFailed(error: Thrown) | TimedOut

  /** What the timer rejects with: an Error without a code. */
  const TimeoutError := ErrorObject("Database timeout", None)

  datatype ReportsResponse = Listed(reports: seq<Report>) | Failure(status: int, error: string)

  const UnauthorizedError := "Unauthorized"
  const CannotConnect := "Cannot connect to database. Please try again later."
  const ConnectionTimeout := "Database connection timeout. Please try again."
  const FetchReportsFailed := "Failed to fetch reports"

  /** The `catch` block: the response for a caught value, chosen by its code. */
  function ErrorResponse(e: Thrown): (r: ReportsResponse)
    ensures r.Failure?
    ensures r.status == 503 <==> CodeOf(e) == Some("P1001")
    ensures r.status == 504 <==> CodeOf(e) == Some("P2024")
    ensures r.status == 500 <==> CodeOf(e) != Some("P1001") && CodeOf(e) != Some("P2024")
    ensures r.status == 503 ==> r.error == CannotConnect
    ensures r.status == 504 ==> r.error == ConnectionTimeout
    ensures r.status == 500 ==> r.error == FetchReportsFailed
  {
    var code := CodeOf(e);
    if code == Some("P1001") then Failure(503, CannotConnect)
    else if code == Some("P2024") then Failure(504, ConnectionTimeout)
    else Failure(500, FetchReportsFailed)
  }

  /** `GET`: `lookup` is the session lookup, `status` and `reportType` the
      query parameters, `rows` the stored reports and `outcome` how the
      raced query ends. */
  function ListReports(lookup: VerifyRole.SessionLookup, status: Option<string>, reportType: Option<string>,
                       rows: seq<Report>, outcome: QueryOutcome): (r: ReportsResponse)
    ensures r.Listed? <==> lookup.Found? && lookup.session.Some? && outcome.Completed?
    ensures r.Failure? ==> r.status in {401, 500, 503, 504}
  {
    match lookup
    case Threw(e) => ErrorResponse(e)
    case Found(session) =>
      if session.None? then Failure(401, UnauthorizedError)
      else
        match outcome
        case Completed => Listed(FindMany(rows, BuildWhere(status, reportType)))
        case StoreFailed(e) => ErrorResponse(e)
        case TimedOut => ErrorResponse(TimeoutError)
  }

  /** Without a session the answer is 401 "Unauthorized", whatever the
      store holds or would do: no query is made. */
  lemma NoSessionUnauthorized(status: Option<string>, reportType: Option<string>,
                              rows: seq<Report>, outcome: QueryOutcome,
                              rows': seq<Report>, outcome': QueryOutcome)
    ensures ListReports(VerifyRole.Found(None), status, reportType, rows, outcome) == Failure(401, UnauthorizedError)
    ensures ListReports(VerifyRole.Found(None), status, reportType, rows, outcome)
         == ListReports(VerifyRole.Found(None), status, reportType, rows', outcome')
  {
  }

  /** A listing holds exactly the stored reports that match every applied
      filter (with their multiplicities), newest first. */
  lemma {:induction false} ListedMatchesFilters(lookup: VerifyRole.SessionLookup, status: Option<string>,
                                                reportType: Option<string>, rows: seq<Report>, outcome: QueryOutcome)
    requires ListReports(lookup, status, reportType, rows, outcome).Listed?
    ensures var listed := ListReports(lookup, status, reportType, rows, outcome).reports;
      && SortedDesc(listed, CreatedAt)
      && (forall x :: x in listed ==>
            (status.Some? && status.value != "" ==> x.status == status.value)
            && (reportType.Some? && reportType.value != "" ==> x.reportType == reportType.value))
      && (forall x :: x in rows && (status.None? || status.value == "" || x.status == status.value)
                     && (reportType.None? || reportType.value == "" || x.reportType == reportType.value)
                     ==> x in listed)
  {
    var w := BuildWhere(status, reportType);
    assert ListReports(lookup, status, reportType, rows, outcome).reports == FindMany(rows, w);
  }

  /** With neither parameter set (absent or empty), every stored report is
      listed, as often as it is stored. */
  lemma {:induction false} NoFiltersListsAll(lookup: VerifyRole.SessionLookup, status: Option<string>,
                                             reportType: Option<string>, rows: seq<Report>)
    requires lookup.Found? && lookup.session.Some?
    requires status.None? || status.value == ""
    requires reportType.None? || reportType.value == ""
    ensures ListReports(lookup, status, reportType, rows, Completed).Listed?
    ensures multiset(ListReports(lookup, status, reportType, rows, Completed).reports) == multiset(rows)
  {
    var w := BuildWhere(status, reportType);
    assert w == Where(None, None);
    var listed := FindMany(rows, w);
    assert forall x :: multiset(listed)[x] == multiset(rows)[x];
    assert multiset(listed) == multiset(rows);
  }

  /** The error mapping: P1001 gives 503, P2024 gives 504, and every other
      failure, the timer's code-less rejection included, gives 500. */
  lemma ErrorCodes(lookup: VerifyRole.SessionLookup, status: Option<string>, reportType: Option<string>,
                   rows: seq<Report>, message: string)
    requires lookup.Found? && lookup.session.Some?
    ensures ListReports(lookup, status, reportType, rows, StoreFailed(ErrorObject(message, Some("P1001"))))
         == Failure(503, CannotConnect)
    ensures ListReports(lookup, status, reportType, rows, StoreFailed(ErrorObject(message, Some("P2024"))))
         == Failure(504, ConnectionTimeout)
    ensures ListReports(lookup, status, reportType, rows, TimedOut) == Failure(500, FetchReportsFailed)
    ensures ListReports(lookup, status, reportType, rows, StoreFailed(NonError)) == Failure(500, FetchReportsFailed)
  {
  }

  /** A throwing session lookup is answered by the same catch as a failed
      query: its code decides the status, whatever the store holds. */
  lemma LookupThrowCodes(e: Thrown, status: Option<string>, reportType: Option<string>,
                         rows: seq<Report>, outcome: QueryOutcome)
    ensures ListReports(VerifyRole.Threw(e), status, reportType, rows, outcome) == ErrorResponse(e)
    ensures ListReports(VerifyRole.Threw(ErrorObject("", Some("P1001"))), status, reportType, rows, outcome)
         == Failure(503, CannotConnect)
    ensures ListReports(VerifyRole.Threw(NonError), status, reportType, rows, outcome) == Failure(500, FetchReportsFailed)
  {
  }
}
