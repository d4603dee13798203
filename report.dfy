/**
 * The React "Readings Report" page: `doFetch` loads the whole history, groups it by date
 * and selects the latest date; `summary` counts days and readings.
 */
module ReadingsReport {
  import opened Wrappers
  import opened Seqs
  import opened Strings
  import opened Readings
  import opened Grouping

  /** `r.timestamp ? r.timestamp.slice(0, 10) : "unknown"`: a missing or empty timestamp is falsy. */
  function ReportKey(r: Reading): (k: string)
    ensures r.timestamp.None? || r.timestamp.value == [] ==> k == "unknown"
    ensures r.timestamp.Some? && r.timestamp.value != [] ==> |k| == Min(10, |r.timestamp.value|) && k == r.timestamp.value[..|k|]
  {
    match r.timestamp
    case Some(t) => if t != [] then Slice10(t) else "unknown"
    case None => "unknown"
  }

  /** The JSON body of `/api/history?all=true`. */
  datatype Body =
    | Rows(rows: seq<Reading>)
    /** `null`, which `rows || []` turns into no rows. */
    | NullBody
    /** Any other object, such as the `{ error }` of a failed query: `forEach` is not a function there. */
    | OtherObject

  /** The outcome of `fetch` and `res.json()`: a body, or an exception. */
  datatype Response = Received(body: Body) | Failed

  /** The rows `doFetch` groups, or `None` when it ends in the `catch` block. */
  function RowsOf(response: Response): Option<seq<Reading>>
  {
    match response
    case Received(Rows(rows)) => Some(rows)
    case Received(NullBody) => Some([])
    case _ => None
  }

  /** The dates the page lists: the distinct keys, in the order of the default `sort()`. */
  function DatesOf(rows: seq<Reading>): seq<string>
  {
    Sort(KeysOf(rows, ReportKey))
  }

  /** The dates are strictly ascending in the order of the default `sort()`, so also distinct. */
  lemma DatesAscending(rows: seq<Reading>)
    ensures forall i, j :: 0 <= i < j < |DatesOf(rows)| ==> Below(DatesOf(rows)[i], DatesOf(rows)[j])
    ensures Distinct(DatesOf(rows))
  {
    SortDistinct(KeysOf(rows, ReportKey));
  }

  /** There is one date for each key that some row has, and no other. */
  lemma DatesPresent(rows: seq<Reading>, d: string)
    ensures d in DatesOf(rows) <==> exists j :: 0 <= j < |rows| && ReportKey(rows[j]) == d
  {
    var ks := KeysOf(rows, ReportKey);
    SortMembers(ks, d);
    if d in ks {
      var m :| 0 <= m < |ks| && ks[m] == d;
    }
  }

  /** When there is a row, the last date, the one `doFetch` selects, is the greatest key. */
  lemma LatestDateIsGreatest(rows: seq<Reading>)
    requires rows != []
    ensures DatesOf(rows) != []
    ensures forall j :: 0 <= j < |rows| ==> AtMost(ReportKey(rows[j]), DatesOf(rows)[|DatesOf(rows)| - 1])
  {
    var ks := KeysOf(rows, ReportKey);
    SortLast(ks, ReportKey(rows[0]));
    forall j | 0 <= j < |rows| ensures AtMost(ReportKey(rows[j]), Sort(ks)[|Sort(ks)| - 1]) {
      SortLast(ks, ReportKey(rows[j]));
    }
  }

  /** Each reading lands in its own date's group as often as it occurs, and in no other group. */
  lemma ReportGroupsPartition(rows: seq<Reading>, x: Reading)
    ensures forall d :: multiset(ByKey(rows, ReportKey, d))[x] == if ReportKey(x) == d then multiset(rows)[x] else 0
  {
    forall d ensures multiset(ByKey(rows, ReportKey, d))[x] == if ReportKey(x) == d then multiset(rows)[x] else 0 {
      ByKeyMultiplicity(rows, ReportKey, d, x);
    }
  }

  /** The group sizes over the listed dates add up to the number of rows. */
  lemma ReportCountsSum(rows: seq<Reading>)
    ensures SumSizes(rows, ReportKey, DatesOf(rows)) == |rows|
  {
    var ks := KeysOf(rows, ReportKey);
    var dates := DatesOf(rows);
    SortDistinct(ks);
    forall j | 0 <= j < |rows| ensures ReportKey(rows[j]) in dates {
      SortMembers(ks, ReportKey(rows[j]));
    }
    GroupSizesSum(rows, ReportKey, dates);
  }

  /** `dates` and `grouped` are the `ordered` object built from `rows`: its keys in order, and its groups. */
  ghost predicate OrderedGroups(rows: seq<Reading>, dates: seq<string>, grouped: map<string, seq<Reading>>)
  {
    && dates == DatesOf(rows)
    && (forall d :: d in grouped <==> d in dates)
    && (forall d :: d in grouped ==> grouped[d] == ByKey(rows, ReportKey, d))
  }

  /**
   * Lines 15-26: the `forEach`/`push` grouping, then `Object.keys(...).sort()` and the `reduce`
   * that rebuilds the object with its keys in sorted order.
   */
  method GroupByDate(rows: seq<Reading>) returns (dates: seq<string>, grouped: map<string, seq<Reading>>)
    ensures OrderedGroups(rows, dates, grouped)
  {
    var keys, groups := GroupBy(rows, ReportKey);
    dates := Sort(keys);
    grouped := groups;
    forall d ensures d in grouped <==> d in dates {
      SortMembers(keys, d);
    }
  }

  /** The ordered object has exactly one entry per listed date. */
  lemma OrderedGroupsCount(rows: seq<Reading>, dates: seq<string>, grouped: map<string, seq<Reading>>)
    requires OrderedGroups(rows, dates, grouped)
    ensures |grouped| == |dates|
  {
    assert grouped.Keys == set d | d in dates;
    DatesAscending(rows);
    DistinctCardinality(dates);
  }

  /** The component's state: `grouped` (its key order and its groups), `selectedDate`, `lastUpdated`. */
  class ReportState {
    var dates: seq<string>
    var grouped: map<string, seq<Reading>>
    var selectedDate: Option<string>
    var lastUpdated: Option<int>
    /** The rows `grouped` was built from. */
    ghost var source: seq<Reading>

    ghost predicate Valid()
      reads this
    {
      OrderedGroups(source, dates, grouped)
    }

    constructor ()
      ensures Valid() && dates == [] && grouped == map[] && selectedDate == None && lastUpdated == None
    {
      dates, grouped, selectedDate, lastUpdated := [], map[], None, None;
      source := [];
    }

    /** `doFetch()`, with the clock reading `now` for `new Date()`. */
    method DoFetch(response: Response, now: int)
      modifies this
      ensures Valid()
      ensures RowsOf(response).None? ==>
                source == [] && dates == [] && grouped == map[]
                && selectedDate == old(selectedDate) && lastUpdated == old(lastUpdated)
      ensures RowsOf(response).Some? ==>
                && source == RowsOf(response).value
                && selectedDate == (if dates != [] then Some(dates[|dates| - 1]) else old(selectedDate))
                && lastUpdated == Some(now)
    {
      var rows := RowsOf(response);
      if rows.None? {
        dates, grouped := [], map[];
        source := [];
        return;
      }
      var sorted, groups := GroupByDate(rows.value);
      var selection := if |sorted| > 0 then Some(sorted[|sorted| - 1]) else selectedDate;
      dates, grouped, selectedDate, lastUpdated := sorted, groups, selection, Some(now);
      source := rows.value;
    }

    /** The `summary` memo: the number of dates and the total number of readings over their groups. */
    method Summary() returns (dayCount: nat, totalReadings: nat)
      requires Valid()
      ensures dayCount == |grouped|
      ensures totalReadings == |source|
    {
      OrderedGroupsCount(source, dates, grouped);
      totalReadings := 0;
      var i := 0;
      while i < |dates|
        invariant 0 <= i <= |dates|
        invariant totalReadings + SumSizes(source, ReportKey, dates[i..]) == SumSizes(source, ReportKey, dates)
      {
        assert dates[i] in grouped;
        assert dates[i..][1..] == dates[i + 1..];
        totalReadings := totalReadings + |grouped[dates[i]]|;
        i := i + 1;
      }
      assert dates[|dates|..] == [];
      dayCount := |dates|;
      ReportCountsSum(source);
    }
  }
}
