/**
 * The main dashboard script: it polls `/api/latest` for the status line, the tiles and the
 * recent-readings table, and `/api/history` for the line charts, which it creates on first use.
 */
module Dashboard {
  import opened Wrappers
  import opened Seqs
  import opened Readings
  import opened Display

  /** `maxPower`: the load score is the power as a share of 3 kW. */
  const MaxPower: real := 3000.0

  /** `Math.round`: the nearest integer, halves rounded up. */
  function Round(x: real): (n: int)
    ensures n as real - 0.5 <= x < n as real + 0.5
  {
    (x + 0.5).Floor
  }

  /** `calculateLoadScore`: the rounded percentage of 3 kW, never above 100; missing power is 0. */
  function LoadScore(r: Reading): (score: int)
    ensures var pct := r.power.OrZero() / MaxPower * 100.0;
            && score <= 100
            && (score == 100 <==> pct >= 99.5)
            && (score < 100 ==> score as real - 0.5 <= pct < score as real + 0.5)
  {
    Min(100, Round(r.power.OrZero() / MaxPower * 100.0))
  }

  const Online: string := "Online"
  const Waiting: string := "Waiting for data..."
  const Offline: string := "Offline"
  const OnlineColor: string := "#00fba8"
  const OtherColor: string := "#ffd429"

  /** The colour `updateDeviceStatus` gives the status text. */
  function StatusColor(status: string): (c: string)
    ensures c == OnlineColor <==> status == Online
    ensures c == OnlineColor || c == OtherColor
  {
    if status == Online then OnlineColor else OtherColor
  }

  /** The part of a Chart.js line chart the script sets: dataset label, x labels and data. */
  datatype LineChart = LineChart(title: string, labels: seq<nat>, data: seq<real>)

  const PowerChart: string := "chart-power"
  const VoltageChart: string := "chart-voltage"
  const CurrentChart: string := "chart-current"
  const LoadScoreChart: string := "chart-loadscore"
  const FrequencyChart: string := "chart-freq"
  const EfficiencyChart: string := "chart-efficiency"

  /** `displayData.map((_, i) => i)`. */
  function Indices(n: nat): (s: seq<nat>)
    ensures |s| == n && forall i :: 0 <= i < n ==> s[i] == i
  {
    seq(n, i => i)
  }

  /** `historyData.map(f)`. */
  function Series(rows: seq<Reading>, f: Reading -> real): (s: seq<real>)
    ensures |s| == |rows| && forall i :: 0 <= i < |rows| ==> s[i] == f(rows[i])
  {
    seq(|rows|, i requires 0 <= i < |rows| => f(rows[i]))
  }

  /** The points `updateCharts` passes for each chart id. */
  function Points(history: seq<Reading>, id: string): seq<real>
  {
    if id == PowerChart then Series(history, (r: Reading) => r.power.OrZero() / 1000.0)
    else if id == VoltageChart then Series(history, (r: Reading) => r.voltage.OrZero())
    else if id == CurrentChart then Series(history, (r: Reading) => r.current.OrZero())
    else if id == LoadScoreChart then Series(history, (r: Reading) => LoadScore(r) as real)
    else if id == FrequencyChart then Series(history, (r: Reading) => r.frequency.OrZero())
    else Series(history, (r: Reading) => r.pf.OrZero() * 100.0)
  }

  /** The dataset label `updateCharts` passes for each chart id. */
  function Title(id: string): string
  {
    if id == PowerChart then "Power (kW)"
    else if id == VoltageChart then "Voltage (V)"
    else if id == CurrentChart then "Current (A)"
    else if id == LoadScoreChart then "Load Score"
    else if id == FrequencyChart then "Frequency (Hz)"
    else "Power Factor (%)"
  }

  /**
   * The charts `updateCharts` feeds, in order: the frequency and power-factor charts only when
   * the first history row has that key at all (`!== undefined`, so a `null` value still counts).
   */
  function FedCharts(first: Reading): (ids: seq<string>)
    ensures Distinct(ids)
    ensures FrequencyChart in ids <==> first.frequency.Defined()
    ensures EfficiencyChart in ids <==> first.pf.Defined()
    ensures forall id :: id in ids ==> id in {PowerChart, VoltageChart, CurrentChart, LoadScoreChart, FrequencyChart, EfficiencyChart}
  {
    [PowerChart, VoltageChart, CurrentChart, LoadScoreChart]
    + (if first.frequency.Defined() then [FrequencyChart] else [])
    + (if first.pf.Defined() then [EfficiencyChart] else [])
  }

  /**
   * `updateSingleChart` with `window.Chart` loaded: a missing canvas is skipped; a canvas with a
   * chart gets the last sixty points as its data and keeps its label and x labels; a canvas
   * without one gets a new chart.
   */
  function UpdateSingleChart(charts: map<string, LineChart>, canvases: set<string>, id: string,
                             points: seq<real>, title: string): (c: map<string, LineChart>)
    ensures id !in canvases ==> c == charts
    ensures id in canvases ==> c.Keys == charts.Keys + {id} && c[id].data == ChartWindow(points)
    ensures id in canvases && id in charts ==> c[id].title == charts[id].title && c[id].labels == charts[id].labels
    ensures id in canvases && id !in charts ==> c[id].title == title && c[id].labels == Indices(|ChartWindow(points)|)
    ensures forall other :: other in charts && other != id ==> other in c && c[other] == charts[other]
  {
    if id !in canvases then charts
    else
      var window := ChartWindow(points);
      if id in charts then charts[id := charts[id].(data := window)]
      else charts[id := LineChart(title, Indices(|window|), window)]
  }

  /** The successive `updateSingleChart` calls for `ids`. */
  function FeedCharts(charts: map<string, LineChart>, canvases: set<string>, history: seq<Reading>,
                      ids: seq<string>): map<string, LineChart>
    decreases ids
  {
    if ids == [] then charts
    else FeedCharts(UpdateSingleChart(charts, canvases, ids[0], Points(history, ids[0]), Title(ids[0])),
                    canvases, history, ids[1..])
  }

  /**
   * Feeding distinct charts: each fed chart that has a canvas shows the last sixty points of its
   * series, the other charts are untouched, and only fed canvases gain a chart.
   */
  lemma {:induction false} FeedChartsWindows(charts: map<string, LineChart>, canvases: set<string>,
                                             history: seq<Reading>, ids: seq<string>)
    requires Distinct(ids)
    ensures var c := FeedCharts(charts, canvases, history, ids);
            && (forall id :: id in c <==> id in charts || (id in ids && id in canvases))
            && (forall id :: id in ids && id in canvases ==> c[id].data == ChartWindow(Points(history, id)))
            && (forall id :: id in charts && id !in ids ==> c[id] == charts[id])
            && (forall id :: id in charts && id in canvases ==> c[id].title == charts[id].title)
    decreases ids
  {
    if ids != [] {
      var id0 := ids[0];
      var c1 := UpdateSingleChart(charts, canvases, id0, Points(history, id0), Title(id0));
      var rest := ids[1..];
      assert Distinct(rest) by {
        forall i, j | 0 <= i < j < |rest| ensures rest[i] != rest[j] {
          assert rest[i] == ids[i + 1] && rest[j] == ids[j + 1];
        }
      }
      assert id0 !in rest by {
        forall j | 0 <= j < |rest| ensures rest[j] != id0 {
          assert rest[j] == ids[j + 1];
        }
      }
      FeedChartsWindows(c1, canvases, history, rest);
      forall id | id in ids ensures id == id0 || id in rest {
        var j :| 0 <= j < |ids| && ids[j] == id;
        if j > 0 {
          assert rest[j - 1] == id;
        }
      }
    }
  }

  /** Feeding keeps charts on canvases only, each with at most sixty points. */
  lemma FeedChartsBounded(charts: map<string, LineChart>, canvases: set<string>, history: seq<Reading>, ids: seq<string>)
    requires Distinct(ids)
    requires charts.Keys <= canvases && forall id :: id in charts ==> |charts[id].data| <= WindowSize
    ensures var c := FeedCharts(charts, canvases, history, ids);
            c.Keys <= canvases && forall id :: id in c ==> |c[id].data| <= WindowSize
  {
    FeedChartsWindows(charts, canvases, history, ids);
    var c := FeedCharts(charts, canvases, history, ids);
    forall id | id in c ensures |c[id].data| <= WindowSize {
      if id in ids && id in canvases {
        assert c[id].data == ChartWindow(Points(history, id));
      }
    }
  }

  /** The dashboard's module-level state and the page elements it writes to. */
  class Dashboard {
    var latestReading: Option<Reading>
    var historyData: seq<Reading>
    var recentReadings: seq<Reading>
    /** The load-score tile. */
    var loadTile: Option<int>
    /** The status text and its colour. */
    var status: Option<string>
    var statusColor: Option<string>
    /** The `chartInstance` stored on each canvas that has one. */
    var charts: map<string, LineChart>
    /** The ids of the page's canvases. */
    const canvases: set<string>
    /** Whether `window.Chart` is loaded. */
    const chartLibrary: bool

    ghost predicate Valid()
      reads this
    {
      && |recentReadings| <= RecentCapacity
      && (latestReading.None? ==> recentReadings == [] && loadTile == None)
      && (latestReading.Some? ==>
            recentReadings != [] && recentReadings[0] == latestReading.value
            && loadTile == Some(LoadScore(latestReading.value)))
      && (status.Some? <==> statusColor.Some?)
      && (status.Some? ==> statusColor.value == StatusColor(status.value))
      && charts.Keys <= canvases
      && (forall id :: id in charts ==> |charts[id].data| <= WindowSize)
    }

    constructor (canvases: set<string>, chartLibrary: bool)
      ensures Valid()
      ensures latestReading == None && historyData == [] && recentReadings == [] && charts == map[]
      ensures status == None && this.canvases == canvases && this.chartLibrary == chartLibrary
    {
      latestReading, historyData, recentReadings, loadTile := None, [], [], None;
      status, statusColor, charts := None, None, map[];
      this.canvases, this.chartLibrary := canvases, chartLibrary;
    }

    /** `updateDeviceStatus`. */
    method UpdateDeviceStatus(text: string)
      modifies this
      ensures status == Some(text) && statusColor == Some(StatusColor(text))
      ensures latestReading == old(latestReading) && historyData == old(historyData)
      ensures recentReadings == old(recentReadings) && loadTile == old(loadTile) && charts == old(charts)
    {
      status, statusColor := Some(text), Some(StatusColor(text));
    }

    /** The load tile and the recent-readings buffer of `updateDashboard`. */
    method UpdateDashboard(reading: Reading)
      modifies this
      ensures loadTile == Some(LoadScore(reading)) && recentReadings == PushRecent(old(recentReadings), reading)
      ensures latestReading == old(latestReading) && historyData == old(historyData)
      ensures status == old(status) && statusColor == old(statusColor) && charts == old(charts)
    {
      loadTile, recentReadings := Some(LoadScore(reading)), PushRecent(recentReadings, reading);
    }

    /** `fetchLatestReading`. */
    method FetchLatestReading(outcome: LatestOutcome)
      requires Valid()
      modifies this
      ensures Valid()
      ensures outcome.NotOk? ==> status == Some(Waiting)
      ensures outcome.Delivered? ==> status == Some(Online)
      ensures outcome.Threw? ==> status == Some(Offline)
      ensures statusColor == Some(OnlineColor) <==> outcome.Delivered?
      ensures outcome.Delivered? ==>
                && latestReading == Some(outcome.reading)
                && recentReadings == PushRecent(old(recentReadings), outcome.reading)
                && loadTile == Some(LoadScore(outcome.reading))
      ensures !outcome.Delivered? ==>
                latestReading == old(latestReading) && recentReadings == old(recentReadings) && loadTile == old(loadTile)
      ensures historyData == old(historyData) && charts == old(charts)
    {
      match outcome
      case NotOk =>
        UpdateDeviceStatus(Waiting);
      case Delivered(reading) =>
        latestReading := Some(reading);
        UpdateDashboard(reading);
        UpdateDeviceStatus(Online);
      case Threw =>
        UpdateDeviceStatus(Offline);
    }

    /** `updateCharts`: nothing without Chart.js or without history, otherwise feed the charts. */
    method UpdateCharts()
      requires Valid()
      modifies this
      ensures Valid()
      ensures !chartLibrary || historyData == [] ==> charts == old(charts)
      ensures chartLibrary && historyData != [] ==> charts == FeedCharts(old(charts), canvases, historyData, FedCharts(historyData[0]))
      ensures latestReading == old(latestReading) && historyData == old(historyData) && recentReadings == old(recentReadings)
      ensures loadTile == old(loadTile) && status == old(status) && statusColor == old(statusColor)
    {
      if !chartLibrary || historyData == [] {
        return;
      }
      var ids := FedCharts(historyData[0]);
      FeedChartsBounded(charts, canvases, historyData, ids);
      charts := FeedCharts(charts, canvases, historyData, ids);
    }

    /** `fetchHistory`: an ok reply replaces the history and updates the charts; a failure changes nothing. */
    method FetchHistory(outcome: HistoryOutcome)
      requires Valid()
      modifies this
      ensures Valid()
      ensures outcome.HistoryFailed? ==> historyData == old(historyData) && charts == old(charts)
      ensures outcome.HistoryRows? ==> historyData == outcome.rows
      ensures outcome.HistoryRows? && (!chartLibrary || outcome.rows == []) ==> charts == old(charts)
      ensures outcome.HistoryRows? && chartLibrary && outcome.rows != [] ==>
                charts == FeedCharts(old(charts), canvases, outcome.rows, FedCharts(outcome.rows[0]))
      ensures latestReading == old(latestReading) && recentReadings == old(recentReadings)
      ensures loadTile == old(loadTile) && status == old(status) && statusColor == old(statusColor)
    {
      match outcome
      case HistoryRows(rows) =>
        historyData := rows;
        UpdateCharts();
      case HistoryFailed =>
    }
  }

  /**
   * Once a history row has arrived, each chart the dashboard feeds shows the last
   * `min(60, n)` points of its series; the frequency chart is fed only when the first row
   * has a `frequency` key.
   */
  lemma DashboardCharts(charts: map<string, LineChart>, canvases: set<string>, history: seq<Reading>)
    requires history != []
    ensures var c := FeedCharts(charts, canvases, history, FedCharts(history[0]));
            && (PowerChart in canvases ==> PowerChart in c && c[PowerChart].data == ChartWindow(Points(history, PowerChart)))
            && (forall id :: id in FedCharts(history[0]) && id in canvases ==>
                  id in c && c[id].data == ChartWindow(Points(history, id)))
            && (forall id :: id in charts && id !in FedCharts(history[0]) ==> id in c && c[id] == charts[id])
            && (forall id :: id in c ==> id in charts || id in canvases)
            && (!history[0].frequency.Defined() && FrequencyChart in charts ==> FrequencyChart in c && c[FrequencyChart] == charts[FrequencyChart])
            && (!history[0].pf.Defined() && EfficiencyChart in charts ==> EfficiencyChart in c && c[EfficiencyChart] == charts[EfficiencyChart])
  {
    FeedChartsWindows(charts, canvases, history, FedCharts(history[0]));
  }
}
