/** The period-to-index mapping `getDateIndices` of the dashboard: which
    part of the fixed monthly series the "Time Period" buttons select. */
module Period {

  /** Number of points in the monthly sentiment series (Jan .. Jun). */
  const SeriesLength: nat := 6

  /** An inclusive index range `start..end` over the monthly series. */
  datatype DateIndices = DateIndices(start: nat, end: nat)

  /** The periods the dashboard offers a button for. */
  predicate IsKnownPeriod(period: string) {
    period == "week" || period == "month" || period == "quarter" || period == "all"
  }

  /** `getDateIndices`: a switch over the selected period. Any period other
      than "week", "month" and "quarter" falls back to the whole series. */
  function GetDateIndices(period: string): (r: DateIndices)
    ensures r.start <= r.end == SeriesLength - 1
    ensures period == "week" ==> r == DateIndices(5, 5)
    ensures period == "month" ==> r == DateIndices(4, 5)
    ensures period == "quarter" ==> r == DateIndices(2, 5)
    ensures period != "week" && period != "month" && period != "quarter" ==> r == DateIndices(0, 5)
  {
    match period
    case "week" => DateIndices(5, 5)
    case "month" => DateIndices(4, 5)
    case "quarter" => DateIndices(2, 5)
    case _ => DateIndices(0, 5)
  }

  /** Number of months a period shows. */
  function WindowLength(ix: DateIndices): nat
    requires ix.start <= ix.end
  {
    ix.end - ix.start + 1
  }

  /** The periods are nested windows ending at the current month: each longer
      period shows every month a shorter one shows, and an unknown period
      string shows exactly what "all" shows. */
  lemma PeriodsNest(period: string)
    ensures GetDateIndices("all").start <= GetDateIndices(period).start
    ensures GetDateIndices(period).start <= GetDateIndices("week").start
    ensures !IsKnownPeriod(period) ==> GetDateIndices(period) == GetDateIndices("all")
    ensures WindowLength(GetDateIndices("week")) == 1
    ensures WindowLength(GetDateIndices("month")) == 2
    ensures WindowLength(GetDateIndices("quarter")) == 4
    ensures WindowLength(GetDateIndices("all")) == SeriesLength
  {
  }
}
