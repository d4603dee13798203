/**
 * The live dashboard script: the same polling of `/api/latest` and `/api/history` as the main
 * dashboard, feeding only the charts the page set up, and the quick-search box with its
 * keyboard navigation over the matching pages.
 */
module LiveDashboard {
  import opened Wrappers
  import opened Seqs
  import opened Strings
  import opened Readings
  import opened Display

  const PowerChart: string := "chart-power"
  const VoltageChart: string := "chart-voltage"
  const CurrentChart: string := "chart-current"
  const FrequencyChart: string := "chart-freq"

  /** The charts `updateCharts` feeds: the frequency chart only when the first row has the key. */
  function FedCharts(first: Reading): (ids: set<string>)
    ensures FrequencyChart in ids <==> first.frequency.Defined()
    ensures {PowerChart, VoltageChart, CurrentChart} <= ids
  {
    {PowerChart, VoltageChart, CurrentChart} + (if first.frequency.Defined() then {FrequencyChart} else {})
  }

  /** The points `updateCharts` passes: power in watts here, and `x || 0` for each column. */
  function Points(history: seq<Reading>, id: string): (s: seq<real>)
    ensures |s| == |history|
  {
    seq(|history|, i requires 0 <= i < |history| =>
      var r := history[i];
      if id == PowerChart then r.power.OrZero()
      else if id == VoltageChart then r.voltage.OrZero()
      else if id == CurrentChart then r.current.OrZero()
      else r.frequency.OrZero())
  }

  /** `updateSingleChart`: only a canvas with a chart instance gets the last sixty points. */
  function Feed(charts: map<string, seq<real>>, id: string, points: seq<real>): (c: map<string, seq<real>>)
    ensures c.Keys == charts.Keys
    ensures id in charts ==> c[id] == ChartWindow(points)
    ensures forall other :: other in charts && other != id ==> c[other] == charts[other]
  {
    if id in charts then charts[id := ChartWindow(points)] else charts
  }

  /** The charts after one `updateCharts` call that gets past its guard. */
  function ChartsShown(charts: map<string, seq<real>>, history: seq<Reading>): map<string, seq<real>>
    requires history != []
  {
    var c := Feed(Feed(Feed(charts, PowerChart, Points(history, PowerChart)),
                       VoltageChart, Points(history, VoltageChart)),
                  CurrentChart, Points(history, CurrentChart));
    if history[0].frequency.Defined() then Feed(c, FrequencyChart, Points(history, FrequencyChart)) else c
  }

  /** The module-level state of the live dashboard and the chart instances of its canvases. */
  class LivePage {
    var latestReading: Option<Reading>
    var historyData: seq<Reading>
    var recentReadings: seq<Reading>
    /** The data of each canvas that has a `chartInstance`; the page creates them at start-up. */
    var charts: map<string, seq<real>>
    /** Whether `window.Chart` is loaded. */
    const chartLibrary: bool

    ghost predicate Valid()
      reads this
    {
      && |recentReadings| <= RecentCapacity
      && (latestReading.Some? <==> recentReadings != [])
      && (latestReading.Some? ==> recentReadings[0] == latestReading.value)
    }

    constructor (charts: map<string, seq<real>>, chartLibrary: bool)
      ensures Valid()
      ensures latestReading == None && historyData == [] && recentReadings == []
      ensures this.charts == charts && this.chartLibrary == chartLibrary
    {
      latestReading, historyData, recentReadings := None, [], [];
      this.charts, this.chartLibrary := charts, chartLibrary;
    }

    /** `fetchLatestReading`: a non-ok reply throws as well, and the `catch` only logs. */
    method FetchLatestReading(outcome: LatestOutcome)
      requires Valid()
      modifies this
      ensures Valid()
      ensures outcome.Delivered? ==>
                latestReading == Some(outcome.reading) && recentReadings == PushRecent(old(recentReadings), outcome.reading)
      ensures !outcome.Delivered? ==> latestReading == old(latestReading) && recentReadings == old(recentReadings)
      ensures historyData == old(historyData) && charts == old(charts)
    {
      if outcome.Delivered? {
        latestReading, recentReadings := Some(outcome.reading), PushRecent(recentReadings, outcome.reading);
      }
    }

    /** `updateSingleChart`. */
    method UpdateSingleChart(id: string, points: seq<real>)
      modifies this
      ensures charts == Feed(old(charts), id, points)
      ensures latestReading == old(latestReading) && historyData == old(historyData) && recentReadings == old(recentReadings)
    {
      if id in charts {
        charts := charts[id := ChartWindow(points)];
      }
    }

    /** `updateCharts`. */
    method UpdateCharts()
      modifies this
      ensures !chartLibrary || historyData == [] ==> charts == old(charts)
      ensures chartLibrary && historyData != [] ==> charts == ChartsShown(old(charts), historyData)
      ensures latestReading == old(latestReading) && historyData == old(historyData) && recentReadings == old(recentReadings)
    {
      if !chartLibrary || historyData == [] {
        return;
      }
      UpdateSingleChart(PowerChart, Points(historyData, PowerChart));
      UpdateSingleChart(VoltageChart, Points(historyData, VoltageChart));
      UpdateSingleChart(CurrentChart, Points(historyData, CurrentChart));
      if historyData[0].frequency.Defined() {
        UpdateSingleChart(FrequencyChart, Points(historyData, FrequencyChart));
      }
    }

    /** `fetchHistory`: an ok reply replaces the history and updates the charts. */
    method FetchHistory(outcome: HistoryOutcome)
      modifies this
      ensures outcome.HistoryFailed? ==> historyData == old(historyData) && charts == old(charts)
      ensures outcome.HistoryRows? ==> historyData == outcome.rows
      ensures outcome.HistoryRows? && chartLibrary && outcome.rows != [] ==> charts == ChartsShown(old(charts), outcome.rows)
      ensures outcome.HistoryRows? && (!chartLibrary || outcome.rows == []) ==> charts == old(charts)
      ensures latestReading == old(latestReading) && recentReadings == old(recentReadings)
    {
      if outcome.HistoryRows? {
        historyData := outcome.rows;
        UpdateCharts();
      }
    }
  }

  /**
   * One `updateCharts` call adds no chart; every chart it feeds holds the last `min(60, n)`
   * points of its series, and the others keep their data.
   */
  lemma ChartsShownBounded(charts: map<string, seq<real>>, history: seq<Reading>)
    requires history != []
    ensures ChartsShown(charts, history).Keys == charts.Keys
    ensures forall id :: id in charts && id in FedCharts(history[0]) ==>
              ChartsShown(charts, history)[id] == ChartWindow(Points(history, id))
    ensures forall id :: id in charts && id !in FedCharts(history[0]) ==> ChartsShown(charts, history)[id] == charts[id]
  {
    var c1 := Feed(charts, PowerChart, Points(history, PowerChart));
    var c2 := Feed(c1, VoltageChart, Points(history, VoltageChart));
    var c3 := Feed(c2, CurrentChart, Points(history, CurrentChart));
    var shown := ChartsShown(charts, history);
    var fed := FedCharts(history[0]);
    assert shown == if history[0].frequency.Defined() then Feed(c3, FrequencyChart, Points(history, FrequencyChart)) else c3;
    forall id | id in charts
      ensures id in fed ==> shown[id] == ChartWindow(Points(history, id))
      ensures id !in fed ==> shown[id] == charts[id]
    {
      if id == PowerChart {
        assert c1[id] == ChartWindow(Points(history, id));
      } else if id == VoltageChart {
        assert c2[id] == ChartWindow(Points(history, id));
      } else if id == CurrentChart {
        assert c3[id] == ChartWindow(Points(history, id));
      } else {
        assert c3[id] == charts[id];
      }
    }
  }

  /** A page the quick search can lead to. */
  datatype Page = Page(name: string, path: string)

  /** `SEARCH_MAP`. */
  const SearchMap: seq<Page> := [
    Page("Dashboard", "index.html"),
    Page("Analytics", "analytics.html"),
    Page("Devices", "devices.html"),
    Page("Live Readings", "live-readings.html"),
    Page("Readings", "readings.html"),
    Page("All Graphs", "all-graphs.html"),
    Page("Reports", "reports.html"),
    Page("Alerts", "alerts.html"),
    Page("Settings", "settings.html"),
    Page("Help", "help.html")
  ]

  /** `this.value.trim().toLowerCase()`. */
  function Query(value: string): string
  {
    Lower(Trim(value))
  }

  /** The `SEARCH_MAP.filter`: the pages whose lower-cased name contains the query, in list order. */
  function Matches(pages: seq<Page>, query: string): (m: seq<Page>)
    ensures forall p :: p in m <==> p in pages && Contains(Lower(p.name), query)
    ensures IsSubsequence(m, pages)
  {
    Filter(pages, (p: Page) => Contains(Lower(p.name), query))
  }

  /**
   * ArrowDown with `len` result links and the focused link at `idx` (-1 when none has focus):
   * the next link, or the first after the last one.
   */
  function ArrowDown(idx: int, len: nat): (next: int)
    requires -1 <= idx < len
    ensures -1 <= next < len
    ensures len > 0 ==> 0 <= next
    ensures idx < len - 1 ==> next == idx + 1
    ensures len > 0 && idx == len - 1 ==> next == 0
    ensures len == 0 ==> next == idx
  {
    if idx < len - 1 then idx + 1 else if len > 0 then 0 else idx
  }

  /** ArrowUp: the previous link, or the last one from the first link or from no focus. */
  function ArrowUp(idx: int, len: nat): (next: int)
    requires -1 <= idx < len
    ensures -1 <= next < len
    ensures len > 0 ==> 0 <= next
    ensures idx > 0 ==> next == idx - 1
    ensures len > 0 && idx <= 0 ==> next == len - 1
    ensures len == 0 ==> next == idx
  {
    if idx > 0 then idx - 1 else if len > 0 then len - 1 else idx
  }

  /** On a focused link, ArrowUp undoes ArrowDown and ArrowDown undoes ArrowUp. */
  lemma ArrowsInverse(idx: int, len: nat)
    requires 0 <= idx < len
    ensures ArrowUp(ArrowDown(idx, len), len) == idx
    ensures ArrowDown(ArrowUp(idx, len), len) == idx
  {
  }

  /** `n` presses of ArrowDown. */
  function DownTimes(idx: int, len: nat, n: nat): (next: int)
    requires -1 <= idx < len
    ensures -1 <= next < len
  {
    if n == 0 then idx else ArrowDown(DownTimes(idx, len, n - 1), len)
  }

  /**
   * ArrowDown walks the links in order and wraps around: `n <= len` presses from link `idx` (or
   * from none) land `n` links further on, counting past the last link back to the first.
   */
  lemma {:induction false} DownCycles(idx: int, len: nat, n: nat)
    requires -1 <= idx < len && n <= len
    ensures DownTimes(idx, len, n) == if idx + n < len then idx + n else idx + n - len
  {
    if n > 0 {
      DownCycles(idx, len, n - 1);
    }
  }

  /** `len` presses of ArrowDown bring the focus back to the link it started on. */
  lemma FullCycle(idx: int, len: nat)
    requires 0 <= idx < len
    ensures DownTimes(idx, len, len) == idx
  {
    DownCycles(idx, len, len);
  }

  /** The quick-search box: its text, the result links it shows, `active`, and the focused link. */
  class QuickSearch {
    /** The pages the box searches. */
    const pages: seq<Page>
    var value: string
    var results: seq<Page>
    var active: bool
    /** The `findIndex` of the focused element among the result links, -1 when it is none of them. */
    var focus: int

    ghost predicate Valid()
      reads this
    {
      -1 <= focus < |results|
    }

    /** The handlers as installed on the page, searching `SEARCH_MAP`. */
    constructor ()
      ensures Valid() && pages == SearchMap && value == [] && results == [] && !active && focus == -1
    {
      pages := SearchMap;
      value, results, active, focus := [], [], false, -1;
    }

    /**
     * The `input` handler: the old links are removed, so no result link keeps focus; an empty
     * query leaves no results, otherwise the matches become the links.
     */
    method Input(text: string)
      modifies this
      ensures Valid()
      ensures value == text && focus == -1
      ensures Query(text) == [] ==> results == [] && !active
      ensures Query(text) != [] ==> results == Matches(pages, Query(text))
      ensures active <==> results != []
    {
      value, focus := text, -1;
      var trimmed := Trim(text);
      var query := Lower(trimmed);
      if trimmed == [] {
        results, active := [], false;
      } else {
        var matches := Matches(pages, query);
        results, active := matches, matches != [];
      }
    }

    /** The `focus` handler: a box with non-blank text is shown again, with its old links. */
    method FocusInput()
      modifies this
      ensures Valid()
      ensures active == (old(active) || Trim(value) != [])
      ensures value == old(value) && results == old(results) && focus == -1
    {
      active, focus := active || Trim(value) != [], -1;
    }

    /** The timer the `blur` handler sets: the results are hidden. */
    method Dismiss()
      modifies this
      ensures !active && value == old(value) && results == old(results) && focus == old(focus)
    {
      active := false;
    }

    /**
     * The `keydown` handler: nothing while the results are hidden; the arrows move the focus
     * with wrap-around; Enter on a focused link follows it, and `navigate` is that link's path.
     */
    method KeyDown(key: string) returns (navigate: Option<string>)
      requires Valid()
      modifies this
      ensures Valid()
      ensures value == old(value) && results == old(results) && active == old(active)
      ensures !active ==> focus == old(focus)
      ensures active && key == "ArrowDown" ==> focus == ArrowDown(old(focus), |results|)
      ensures active && key == "ArrowUp" ==> focus == ArrowUp(old(focus), |results|)
      ensures key != "ArrowDown" && key != "ArrowUp" ==> focus == old(focus)
      ensures navigate.Some? <==> active && key == "Enter" && 0 <= focus
      ensures navigate.Some? ==> navigate.value == results[focus].path
    {
      navigate := None;
      if !active {
        return;
      }
      if key == "ArrowDown" {
        focus := ArrowDown(focus, |results|);
      }
      if key == "ArrowUp" {
        focus := ArrowUp(focus, |results|);
      }
      if key == "Enter" && 0 <= focus {
        navigate := Some(results[focus].path);
      }
    }
  }
}
