/** The location endpoint `GET /api/location`: the stored reports that
    carry both coordinates, newest first. */
module Location {
  import opened Queries
  import opened Reports

  datatype LocationResponse = Located(reports: seq<Report>) | LocationError(status: int, message: string)

  const LocationFailed := "Error fetching reports"

  /** `GET`; `fault` says whether the query throws. */
  function GetLocations(rows: seq<Report>, fault: bool): (r: LocationResponse)
    ensures fault ==> r == LocationError(500, LocationFailed)
    ensures !fault ==> r.Located? && SortedDesc(r.reports, CreatedAt)
    ensures !fault ==> forall x :: x in r.reports ==> x.latitude.Some? && x.longitude.Some?
    ensures !fault ==> forall x :: x in rows && HasCoordinates(x) ==> x in r.reports
    ensures !fault ==> multiset(r.reports) == multiset(Filter(rows, HasCoordinatesFn()))
  {
    if fault then LocationError(500, LocationFailed)
    else
      var kept := Filter(rows, HasCoordinatesFn());
      assert forall x :: x in SortDesc(kept, CreatedAt) <==> x in multiset(kept);
      Located(SortDesc(kept, CreatedAt))
  }

  /** A report is listed exactly as often as it is stored, when it has both
      coordinates, and not at all otherwise. */
  lemma LocatedCounts(rows: seq<Report>, x: Report)
    ensures multiset(GetLocations(rows, false).reports)[x] == if HasCoordinates(x) then multiset(rows)[x] else 0
  {
    FilterMultiset(rows, HasCoordinatesFn(), x);
  }
}
