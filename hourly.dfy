/**
 * The analytics page: `aggregateHourlyUsage` buckets the history by hour of day and averages
 * the power in each bucket, and `updateAnalyticsCharts` creates the six charts once and then
 * only feeds them data. The hour of a reading (`new Date(r.timestamp).getHours()`, which
 * depends on the host time zone) and the time-of-day axis labels are parameters.
 */
module HourlyAnalytics {
  import opened Wrappers
  import opened Seqs
  import opened Strings
  import opened Readings
  import opened Grouping

  type Hour = h: nat | h < 24

  /** The bucket key `d.getHours() + ':00'`. */
  function HourLabel(h: Hour): string
  {
    DecimalString(h) + ":00"
  }

  /** The sort comparator reads the hour back out of a label with `parseInt`. */
  lemma HourLabelParses(h: Hour)
    ensures ParseInt(HourLabel(h)) == Some(h as int)
  {
    ParseIntOfDecimal(h, ":00");
  }

  /** Different hours have different labels, so the buckets are keyed by hour. */
  lemma HourLabelInjective(a: Hour, b: Hour)
    requires HourLabel(a) == HourLabel(b)
    ensures a == b
  {
    HourLabelParses(a);
    HourLabelParses(b);
  }

  /** The hours of `keys` from `from` upwards, in ascending order. */
  function HoursFrom(keys: set<Hour>, from: nat): (hs: seq<Hour>)
    requires from <= 24
    decreases 24 - from
    ensures forall k :: 0 <= k < |hs| ==> from <= hs[k]
    ensures forall i, j :: 0 <= i < j < |hs| ==> hs[i] < hs[j]
    ensures forall h: Hour :: h in hs <==> from <= h && h in keys
  {
    if from == 24 then []
    else
      var h: Hour := from;
      (if h in keys then [h] else []) + HoursFrom(keys, from + 1)
  }

  /**
   * `Object.keys(hours).sort((a, b) => parseInt(a) - parseInt(b))`: the keys are distinct
   * hours, so the comparator leaves exactly one order, the ascending one.
   */
  function AscendingHours(keys: set<Hour>): (hs: seq<Hour>)
    ensures forall i, j :: 0 <= i < j < |hs| ==> hs[i] < hs[j]
    ensures forall h: Hour :: h in hs <==> h in keys
  {
    HoursFrom(keys, 0)
  }

  /** The hours at which some reading of the history was taken. */
  function PresentHours(history: seq<Reading>, hourOf: Reading -> Hour): set<Hour>
  {
    set j | 0 <= j < |history| :: hourOf(history[j])
  }

  function HoursPresent(history: seq<Reading>, hourOf: Reading -> Hour): seq<Hour>
  {
    AscendingHours(PresentHours(history, hourOf))
  }

  /** `hours[k].sum / hours[k].count`, with `r.power || 0` summed. */
  function MeanPower(g: seq<Reading>): real
    requires g != []
  {
    PowerSum(g) / (|g| as real)
  }

  /** A present hour has a non-empty bucket. */
  lemma PresentBucket(history: seq<Reading>, hourOf: Reading -> Hour, h: Hour)
    requires h in PresentHours(history, hourOf)
    ensures ByKey(history, hourOf, h) != []
  {
    var j :| 0 <= j < |history| && hourOf(history[j]) == h;
    PositionIsRow(history, hourOf, j);
  }

  /** The chart labels: one per present hour, ascending. */
  function HourlyLabels(history: seq<Reading>, hourOf: Reading -> Hour): (labels: seq<string>)
    ensures |labels| == |HoursPresent(history, hourOf)|
  {
    LabelsOf(HoursPresent(history, hourOf))
  }

  /** The label of each hour of `hs`, in order. */
  function LabelsOf(hs: seq<Hour>): (labels: seq<string>)
    ensures |labels| == |hs| && forall k :: 0 <= k < |hs| ==> labels[k] == HourLabel(hs[k])
  {
    seq(|hs|, k requires 0 <= k < |hs| => HourLabel(hs[k]))
  }

  /** The chart data: the mean power of each present hour's readings, in label order. */
  function HourlyMeans(history: seq<Reading>, hourOf: Reading -> Hour): (data: seq<real>)
    ensures |data| == |HoursPresent(history, hourOf)|
  {
    var hs := HoursPresent(history, hourOf);
    seq(|hs|, k requires 0 <= k < |hs| => BucketMean(history, hourOf, hs[k]))
  }

  /** The mean power of the readings taken at hour `h`, for an hour that occurs. */
  function BucketMean(history: seq<Reading>, hourOf: Reading -> Hour, h: Hour): (m: real)
    requires h in PresentHours(history, hourOf)
    ensures ByKey(history, hourOf, h) != [] && m == MeanPower(ByKey(history, hourOf, h))
  {
    PresentBucket(history, hourOf, h);
    MeanPower(ByKey(history, hourOf, h))
  }

  /** One entry of the `hours` dictionary: `{ sum, count }`. */
  datatype Bucket = Bucket(sum: real, count: nat)

  /** The entry the readings `g` of one hour add up to. */
  function BucketOf(g: seq<Reading>): Bucket
  {
    Bucket(PowerSum(g), |g|)
  }

  /** The `hours` dictionary after the first `i` readings: one bucket per hour seen so far. */
  ghost predicate Tallied(history: seq<Reading>, hourOf: Reading -> Hour, i: nat, hours: map<Hour, Bucket>)
    requires i <= |history|
  {
    && (forall h :: h in hours <==> h in KeysOf(history[..i], hourOf))
    && (forall h :: h in hours ==> hours[h] == BucketOf(ByKey(history[..i], hourOf, h)))
  }

  /** The body of the `forEach`: create the bucket if it is missing, then add the reading to it. */
  function AddReading(hours: map<Hour, Bucket>, h: Hour, r: Reading): map<Hour, Bucket>
  {
    var b := if h in hours then hours[h] else Bucket(0.0, 0);
    hours[h := Bucket(b.sum + r.power.OrZero(), b.count + 1)]
  }

  lemma BucketSnoc(g: seq<Reading>, r: Reading)
    ensures BucketOf(g + [r]) == Bucket(BucketOf(g).sum + r.power.OrZero(), BucketOf(g).count + 1)
  {
    assert (g + [r])[..|g|] == g;
  }

  lemma TallyStep(history: seq<Reading>, hourOf: Reading -> Hour, i: nat, hours: map<Hour, Bucket>)
    requires i < |history| && Tallied(history, hourOf, i, hours)
    ensures Tallied(history, hourOf, i + 1, AddReading(hours, hourOf(history[i]), history[i]))
  {
    TallyKeys(history, hourOf, i, hours);
    TallyContents(history, hourOf, i, hours);
  }

  /** After one more reading the dictionary has a bucket for exactly the hours seen. */
  lemma TallyKeys(history: seq<Reading>, hourOf: Reading -> Hour, i: nat, hours: map<Hour, Bucket>)
    requires i < |history| && Tallied(history, hourOf, i, hours)
    ensures forall x :: x in AddReading(hours, hourOf(history[i]), history[i]) <==> x in KeysOf(history[..i + 1], hourOf)
  {
    ExtendKeys(history, hourOf, i);
  }

  /** After one more reading each bucket sums and counts its hour's readings. */
  lemma TallyContents(history: seq<Reading>, hourOf: Reading -> Hour, i: nat, hours: map<Hour, Bucket>)
    requires i < |history| && Tallied(history, hourOf, i, hours)
    ensures var after := AddReading(hours, hourOf(history[i]), history[i]);
            forall x :: x in after ==> after[x] == BucketOf(ByKey(history[..i + 1], hourOf, x))
  {
    var after := AddReading(hours, hourOf(history[i]), history[i]);
    forall x | x in after
      ensures after[x] == BucketOf(ByKey(history[..i + 1], hourOf, x))
    {
      if x == hourOf(history[i]) {
        TallyHit(history, hourOf, i, hours);
      } else {
        TallyMiss(history, hourOf, i, hours, x);
      }
    }
  }

  /** The bucket of the reading's own hour gains that reading. */
  lemma TallyHit(history: seq<Reading>, hourOf: Reading -> Hour, i: nat, hours: map<Hour, Bucket>)
    requires i < |history| && Tallied(history, hourOf, i, hours)
    ensures var h := hourOf(history[i]);
            AddReading(hours, h, history[i])[h] == BucketOf(ByKey(history[..i + 1], hourOf, h))
  {
    var r := history[i];
    var h := hourOf(r);
    var pre := history[..i];
    ExtendGroup(history, hourOf, i, h);
    if h !in hours {
      AbsentKeyEmpty(pre, hourOf, h);
    }
    BucketSnoc(ByKey(pre, hourOf, h), r);
  }

  /** Every other bucket stays as it was. */
  lemma TallyMiss(history: seq<Reading>, hourOf: Reading -> Hour, i: nat, hours: map<Hour, Bucket>, x: Hour)
    requires i < |history| && Tallied(history, hourOf, i, hours)
    requires x in AddReading(hours, hourOf(history[i]), history[i]) && x != hourOf(history[i])
    ensures AddReading(hours, hourOf(history[i]), history[i])[x] == BucketOf(ByKey(history[..i + 1], hourOf, x))
  {
    var after := AddReading(hours, hourOf(history[i]), history[i]);
    assert x in hours;
    assert after[x] == hours[x];
    assert hours[x] == BucketOf(ByKey(history[..i], hourOf, x));
    ExtendGroup(history, hourOf, i, x);
    assert ByKey(history[..i + 1], hourOf, x) == ByKey(history[..i], hourOf, x);
  }

  /** Once every reading is tallied, the dictionary holds the present hours and their means. */
  lemma TallyResult(history: seq<Reading>, hourOf: Reading -> Hour, hours: map<Hour, Bucket>)
    requires Tallied(history, hourOf, |history|, hours)
    ensures hours.Keys == PresentHours(history, hourOf)
    ensures forall h :: h in PresentHours(history, hourOf) ==>
              hours[h].count > 0 && hours[h].sum / (hours[h].count as real) == BucketMean(history, hourOf, h)
  {
    assert history[..|history|] == history;
    forall h | h in PresentHours(history, hourOf) ensures h in hours {
      var j :| 0 <= j < |history| && hourOf(history[j]) == h;
    }
    forall h | h in hours ensures h in PresentHours(history, hourOf) {
      var m :| 0 <= m < |KeysOf(history, hourOf)| && KeysOf(history, hourOf)[m] == h;
      var j :| 0 <= j < |history| && hourOf(history[j]) == h;
    }
    forall h | h in PresentHours(history, hourOf) ensures hours[h].count > 0 {
      PresentBucket(history, hourOf, h);
    }
  }

  /** The averages the `map` over the sorted keys reads out of the dictionary. */
  function BucketMeans(hours: map<Hour, Bucket>, hs: seq<Hour>): (data: seq<real>)
    requires forall k :: 0 <= k < |hs| ==> hs[k] in hours && hours[hs[k]].count > 0
    ensures |data| == |hs|
    ensures forall k :: 0 <= k < |hs| ==> data[k] == hours[hs[k]].sum / (hours[hs[k]].count as real)
  {
    seq(|hs|, k requires 0 <= k < |hs| => hours[hs[k]].sum / (hours[hs[k]].count as real))
  }

  /** Read out over the present hours, the finished dictionary gives exactly the hourly means. */
  lemma TalliedMeans(history: seq<Reading>, hourOf: Reading -> Hour, hours: map<Hour, Bucket>)
    requires Tallied(history, hourOf, |history|, hours)
    ensures AscendingHours(hours.Keys) == HoursPresent(history, hourOf)
    ensures forall k :: 0 <= k < |HoursPresent(history, hourOf)| ==>
              HoursPresent(history, hourOf)[k] in hours && hours[HoursPresent(history, hourOf)[k]].count > 0
    ensures BucketMeans(hours, HoursPresent(history, hourOf)) == HourlyMeans(history, hourOf)
  {
    TallyResult(history, hourOf, hours);
    var hs := HoursPresent(history, hourOf);
    forall k | 0 <= k < |hs| ensures hs[k] in hours && hours[hs[k]].count > 0 {
      assert hs[k] in PresentHours(history, hourOf);
    }
    var data := BucketMeans(hours, hs);
    forall k | 0 <= k < |hs| ensures data[k] == HourlyMeans(history, hourOf)[k] {
      assert hs[k] in PresentHours(history, hourOf);
    }
  }

  /** `aggregateHourlyUsage(history)`. */
  method AggregateHourlyUsage(history: seq<Reading>, hourOf: Reading -> Hour) returns (labels: seq<string>, data: seq<real>)
    ensures labels == HourlyLabels(history, hourOf)
    ensures data == HourlyMeans(history, hourOf)
  {
    var hours: map<Hour, Bucket> := map[];
    var i := 0;
    while i < |history|
      invariant 0 <= i <= |history|
      invariant Tallied(history, hourOf, i, hours)
    {
      TallyStep(history, hourOf, i, hours);
      hours := AddReading(hours, hourOf(history[i]), history[i]);
      i := i + 1;
    }
    TalliedMeans(history, hourOf, hours);
    var sorted := AscendingHours(hours.Keys);
    labels := LabelsOf(sorted);
    data := BucketMeans(hours, sorted);
  }

  /** The labels are distinct and ascending by the hour `parseInt` reads out of them. */
  lemma HourlyLabelsAscending(history: seq<Reading>, hourOf: Reading -> Hour, i: nat, j: nat)
    requires i < j < |HourlyLabels(history, hourOf)|
    ensures HourlyLabels(history, hourOf)[i] != HourlyLabels(history, hourOf)[j]
    ensures ParseInt(HourlyLabels(history, hourOf)[i]).Some? && ParseInt(HourlyLabels(history, hourOf)[j]).Some?
    ensures ParseInt(HourlyLabels(history, hourOf)[i]).value < ParseInt(HourlyLabels(history, hourOf)[j]).value
  {
    var hs := HoursPresent(history, hourOf);
    HourLabelParses(hs[i]);
    HourLabelParses(hs[j]);
  }

  /** There is exactly one label per hour that occurs in the history. */
  lemma HourlyLabelsPresent(history: seq<Reading>, hourOf: Reading -> Hour, h: Hour)
    ensures HourLabel(h) in HourlyLabels(history, hourOf) <==> exists j :: 0 <= j < |history| && hourOf(history[j]) == h
  {
    var hs := HoursPresent(history, hourOf);
    var labels := HourlyLabels(history, hourOf);
    if HourLabel(h) in labels {
      var k :| 0 <= k < |labels| && labels[k] == HourLabel(h);
      HourLabelInjective(hs[k], h);
      assert h in PresentHours(history, hourOf);
    }
    if exists j :: 0 <= j < |history| && hourOf(history[j]) == h {
      assert h in PresentHours(history, hourOf);
      var k :| 0 <= k < |hs| && hs[k] == h;
      assert labels[k] == HourLabel(h);
    }
  }

  /** Every reading is counted in exactly one bucket: the bucket counts add up to the history length. */
  lemma HourlyCountsSum(history: seq<Reading>, hourOf: Reading -> Hour)
    ensures SumSizes(history, hourOf, HoursPresent(history, hourOf)) == |history|
  {
    var hs := HoursPresent(history, hourOf);
    assert Distinct(hs);
    forall j | 0 <= j < |history| ensures hourOf(history[j]) in hs {
      assert hourOf(history[j]) in PresentHours(history, hourOf);
    }
    GroupSizesSum(history, hourOf, hs);
  }

  /** A chart drawn on a canvas: its fixed dataset label and colour, and the data last given to it. */
  datatype Chart = Chart(title: string, color: string, labels: seq<string>, data: seq<real>)

  const MainPowerChart := "main-power-chart"
  const WaveformChart := "waveform-chart"
  const PfChart := "pf-chart"
  const MinMaxVoltageChart := "minmax-voltage-chart"
  const DeviceChart := "device-chart"
  const HourlyChart := "hourly-chart"

  /** The six charts `updateAnalyticsCharts` initialises, with their dataset labels and colours. */
  function ChartSpecs(): seq<(string, string, string)>
  {
    [ (MainPowerChart, "Power (W)", "#05eafd"),
      (WaveformChart, "Voltage (V)", "#bc13fe"),
      (PfChart, "Power Factor (%)", "#00fba8"),
      (MinMaxVoltageChart, "Voltage Range", "#fd3aaf"),
      (DeviceChart, "Total Load (W)", "#fad600"),
      (HourlyChart, "Hourly Avg Power (W)", "#ff5e57") ]
  }

  /** `initChart(id, title, color)`: a new empty chart, or `null` when the page has no such canvas. */
  function InitChart(canvases: set<string>, id: string, title: string, color: string): (c: Option<Chart>)
    ensures c.Some? <==> id in canvases
    ensures c.Some? ==> c.value == Chart(title, color, [], [])
  {
    if id in canvases then Some(Chart(title, color, [], [])) else None
  }

  /** `chartInstances[id]` is a chart (truthy), as opposed to missing or `null`. */
  predicate HasChart(instances: map<string, Option<Chart>>, id: string)
  {
    id in instances && instances[id].Some?
  }

  /** `updateChartData(id, labels, data)`: only a chart that exists gets the new data. */
  function Feed(instances: map<string, Option<Chart>>, id: string, labels: seq<string>, data: seq<real>): (after: map<string, Option<Chart>>)
    ensures after.Keys == instances.Keys
    ensures forall other :: other in instances && other != id ==> after[other] == instances[other]
    ensures HasChart(after, id) <==> HasChart(instances, id)
    ensures HasChart(instances, id) ==> after[id] == Some(instances[id].value.(labels := labels, data := data))
  {
    if HasChart(instances, id) then instances[id := Some(instances[id].value.(labels := labels, data := data))]
    else instances
  }

  /** The series each chart shows: power, voltage or power factor in percent, per reading. */
  function PowerSeries(history: seq<Reading>): (s: seq<real>)
    ensures |s| == |history| && forall k :: 0 <= k < |s| ==> s[k] == history[k].power.OrZero()
  {
    seq(|history|, k requires 0 <= k < |history| => history[k].power.OrZero())
  }

  function VoltageSeries(history: seq<Reading>): (s: seq<real>)
    ensures |s| == |history| && forall k :: 0 <= k < |s| ==> s[k] == history[k].voltage.OrZero()
  {
    seq(|history|, k requires 0 <= k < |history| => history[k].voltage.OrZero())
  }

  function PfSeries(history: seq<Reading>): (s: seq<real>)
    ensures |s| == |history| && forall k :: 0 <= k < |s| ==> s[k] == history[k].pf.OrZero() * 100.0
  {
    seq(|history|, k requires 0 <= k < |history| => history[k].pf.OrZero() * 100.0)
  }

  /** The x-axis labels: one time of day per reading, in order. */
  function TimeLabels(history: seq<Reading>, timeLabel: Reading -> string): (times: seq<string>)
    ensures |times| == |history| && forall k :: 0 <= k < |history| ==> times[k] == timeLabel(history[k])
  {
    seq(|history|, k requires 0 <= k < |history| => timeLabel(history[k]))
  }

  /** The chart map after the initialisation block of lines 193-201. */
  function Initialised(instances: map<string, Option<Chart>>, canvases: set<string>): (m: map<string, Option<Chart>>)
    ensures forall k :: 0 <= k < |ChartSpecs()| ==> ChartSpecs()[k].0 in m
  {
    var s := ChartSpecs();
    instances[s[0].0 := InitChart(canvases, s[0].0, s[0].1, s[0].2)]
             [s[1].0 := InitChart(canvases, s[1].0, s[1].1, s[1].2)]
             [s[2].0 := InitChart(canvases, s[2].0, s[2].1, s[2].2)]
             [s[3].0 := InitChart(canvases, s[3].0, s[3].1, s[3].2)]
             [s[4].0 := InitChart(canvases, s[4].0, s[4].1, s[4].2)]
             [s[5].0 := InitChart(canvases, s[5].0, s[5].1, s[5].2)]
  }

  /** After initialisation each of the six ids holds a new empty chart exactly when its canvas exists. */
  lemma InitialisedCharts(instances: map<string, Option<Chart>>, canvases: set<string>, k: nat)
    requires k < |ChartSpecs()|
    ensures var (id, title, color) := ChartSpecs()[k];
            var m := Initialised(instances, canvases);
            (HasChart(m, id) <==> id in canvases)
            && (HasChart(m, id) ==> m[id].value == Chart(title, color, [], []))
  {
  }

  /** Lines 203-215: each chart that exists gets its series; the hourly chart gets the hourly means. */
  function FeedAll(instances: map<string, Option<Chart>>, times: seq<string>, history: seq<Reading>,
                   hourOf: Reading -> Hour): map<string, Option<Chart>>
  {
    var m1 := Feed(instances, MainPowerChart, times, PowerSeries(history));
    var m2 := Feed(m1, WaveformChart, times, VoltageSeries(history));
    var m3 := Feed(m2, PfChart, times, PfSeries(history));
    var m4 := Feed(m3, MinMaxVoltageChart, times, VoltageSeries(history));
    var m5 := Feed(m4, DeviceChart, times, PowerSeries(history));
    Feed(m5, HourlyChart, HourlyLabels(history, hourOf), HourlyMeans(history, hourOf))
  }

  /** The module-level `chartInstances` dictionary and the page it draws on. */
  class AnalyticsCharts {
    var instances: map<string, Option<Chart>>
    /** How many times the six charts have been initialised. */
    var initialisations: nat
    /** The ids of the canvases present in the page. */
    const canvases: set<string>

    constructor (page: set<string>)
      ensures instances == map[] && initialisations == 0 && canvases == page
    {
      instances := map[];
      initialisations := 0;
      canvases := page;
    }

    /**
     * `updateAnalyticsCharts(history)`. `chartLoaded` is `window.Chart`; `timeLabel` formats a
     * reading's time of day for the x axis.
     */
    method Update(history: seq<Reading>, chartLoaded: bool, timeLabel: Reading -> string, hourOf: Reading -> Hour)
      modifies this
      ensures !chartLoaded || history == [] ==> instances == old(instances) && initialisations == old(initialisations)
      ensures chartLoaded && history != [] ==>
                var start := if HasChart(old(instances), MainPowerChart) then old(instances) else Initialised(old(instances), canvases);
                var times := TimeLabels(history, timeLabel);
                && initialisations == old(initialisations) + (if HasChart(old(instances), MainPowerChart) then 0 else 1)
                && instances == FeedAll(start, times, history, hourOf)
    {
      if !chartLoaded || history == [] {
        return;
      }
      if !HasChart(instances, MainPowerChart) {
        instances := Initialised(instances, canvases);
        initialisations := initialisations + 1;
      }
      FeedCharts(TimeLabels(history, timeLabel), history, hourOf);
    }

    /** Lines 203-215: the six `updateChartData` calls. */
    method FeedCharts(times: seq<string>, history: seq<Reading>, hourOf: Reading -> Hour)
      modifies this
      ensures instances == FeedAll(old(instances), times, history, hourOf)
      ensures initialisations == old(initialisations)
    {
      var power := PowerSeries(history);
      var voltage := VoltageSeries(history);
      var pf := PfSeries(history);
      instances := Feed(instances, MainPowerChart, times, power);
      instances := Feed(instances, WaveformChart, times, voltage);
      instances := Feed(instances, PfChart, times, pf);
      instances := Feed(instances, MinMaxVoltageChart, times, voltage);
      instances := Feed(instances, DeviceChart, times, power);
      var hourlyLabels, hourlyData := AggregateHourlyUsage(history, hourOf);
      instances := Feed(instances, HourlyChart, hourlyLabels, hourlyData);
    }
  }

  /** Feeding one chart leaves every chart in place with its title and colour. */
  lemma FeedKeeps(instances: map<string, Option<Chart>>, fed: string, labels: seq<string>, data: seq<real>, id: string)
    ensures var after := Feed(instances, fed, labels, data);
            (HasChart(after, id) <==> HasChart(instances, id))
            && (HasChart(after, id) ==> after[id].value.title == instances[id].value.title
                                        && after[id].value.color == instances[id].value.color)
  {
  }

  /** Feeding data never adds, removes or replaces a chart. */
  lemma FeedAllKeepsCharts(instances: map<string, Option<Chart>>, times: seq<string>, history: seq<Reading>,
                           hourOf: Reading -> Hour, id: string)
    ensures var after := FeedAll(instances, times, history, hourOf);
            after.Keys == instances.Keys
            && (HasChart(after, id) <==> HasChart(instances, id))
            && (HasChart(after, id) ==> after[id].value.title == instances[id].value.title
                                        && after[id].value.color == instances[id].value.color)
  {
    var m1 := Feed(instances, MainPowerChart, times, PowerSeries(history));
    var m2 := Feed(m1, WaveformChart, times, VoltageSeries(history));
    var m3 := Feed(m2, PfChart, times, PfSeries(history));
    var m4 := Feed(m3, MinMaxVoltageChart, times, VoltageSeries(history));
    var m5 := Feed(m4, DeviceChart, times, PowerSeries(history));
    FeedKeeps(instances, MainPowerChart, times, PowerSeries(history), id);
    FeedKeeps(m1, WaveformChart, times, VoltageSeries(history), id);
    FeedKeeps(m2, PfChart, times, PfSeries(history), id);
    FeedKeeps(m3, MinMaxVoltageChart, times, VoltageSeries(history), id);
    FeedKeeps(m4, DeviceChart, times, PowerSeries(history), id);
    FeedKeeps(m5, HourlyChart, HourlyLabels(history, hourOf), HourlyMeans(history, hourOf), id);
  }

  /**
   * Once the main power canvas exists, one update leaves a main power chart behind, so every
   * later update skips the initialisation block and reuses the charts.
   */
  lemma InitialiseOnce(instances: map<string, Option<Chart>>, canvases: set<string>, times: seq<string>,
                       history: seq<Reading>, hourOf: Reading -> Hour)
    requires MainPowerChart in canvases
    ensures var start := if HasChart(instances, MainPowerChart) then instances else Initialised(instances, canvases);
            HasChart(FeedAll(start, times, history, hourOf), MainPowerChart)
  {
    var start := if HasChart(instances, MainPowerChart) then instances else Initialised(instances, canvases);
    InitialisedCharts(instances, canvases, 0);
    FeedAllKeepsCharts(start, times, history, hourOf, MainPowerChart);
  }
}
