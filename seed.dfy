/**
 * The test-data script: a fixed table of sample alerts and a loop that builds one sample report
 * for each of the last fourteen days, classifying it by how many days back it lies.
 */
module SeedData {
  import opened Seqs
  import opened Strings

  /** A row of `sampleAlerts`. */
  datatype SeedAlert = SeedAlert(kind: string, message: string, resolved: int)

  /** `sampleAlerts`. */
  const SampleAlerts: seq<SeedAlert> := [
    SeedAlert("critical", VoltageSpikeMessage, 0),
    SeedAlert("warning", LowPowerFactorMessage, 0),
    SeedAlert("info", StartedMessage, 1),
    SeedAlert("critical", OvercurrentMessage, 0),
    SeedAlert("warning", HighThdMessage, 0),
    SeedAlert("info", FirmwareMessage, 1),
    SeedAlert("warning", TemperatureMessage, 0),
    SeedAlert("critical", FrequencyMessage, 0)
  ]

  const VoltageSpikeMessage: string := "Voltage spike detected: 255V (above safe threshold)"
  const LowPowerFactorMessage: string := "Power factor dropped below 0.85"
  const StartedMessage: string := "System started successfully"
  const OvercurrentMessage: string := "Overcurrent detected on Phase A: 12.5A"
  const HighThdMessage: string := "High THD detected (6.8%)"
  const FirmwareMessage: string := "Firmware updated to v2.15"
  const TemperatureMessage: string := "Temperature above normal: 48°C"
  const FrequencyMessage: string := "Frequency deviation: 51.2Hz"

  /** Eight sample alerts, two of them resolved, so six stay active. */
  lemma SampleAlertCounts()
    ensures |SampleAlerts| == 8
    ensures |Filter(SampleAlerts, (a: SeedAlert) => a.resolved != 0)| == 2
    ensures |Filter(SampleAlerts, (a: SeedAlert) => a.resolved == 0)| == 6
  {
    var resolved := (a: SeedAlert) => a.resolved != 0;
    var active := (a: SeedAlert) => a.resolved == 0;
    FilterLength(SampleAlerts, resolved);
    FilterLength(SampleAlerts, active);
    CountOfEight(SampleAlerts, resolved);
    CountOfEight(SampleAlerts, active);
  }

  /** The count over eight elements, written out one element at a time. */
  lemma CountOfEight<T>(s: seq<T>, keep: T -> bool)
    requires |s| == 8
    ensures Count(s, keep) == (if keep(s[0]) then 1 else 0) + (if keep(s[1]) then 1 else 0)
                              + (if keep(s[2]) then 1 else 0) + (if keep(s[3]) then 1 else 0)
                              + (if keep(s[4]) then 1 else 0) + (if keep(s[5]) then 1 else 0)
                              + (if keep(s[6]) then 1 else 0) + (if keep(s[7]) then 1 else 0)
  {
    forall k | 0 <= k < 8 ensures Count(s[k..], keep) == (if keep(s[k]) then 1 else 0) + Count(s[k + 1..], keep) {
      assert s[k..][1..] == s[k + 1..];
    }
    assert s[8..] == [];
    assert s[0..] == s;
  }

  /** A row of `sampleReports`. */
  datatype SeedReport = SeedReport(date: string, summary: string, reportType: string, status: string, filePath: string)

  /** The number of days the loop covers. */
  const Days: nat := 14

  /** `summaries`, the rotating daily summaries. */
  const Summaries: seq<string> := [
    ConsumptionSummary, UsageSummary, TrendsSummary, MetricsSummary, EfficiencySummary, LoadProfileSummary
  ]

  const ConsumptionSummary: string := "Daily energy consumption, power quality metrics"
  const UsageSummary: string := "Energy usage summary, peak demand analysis"
  const TrendsSummary: string := "Power consumption trends, anomaly detection"
  const MetricsSummary: string := "Daily power metrics and device health"
  const EfficiencySummary: string := "Energy efficiency analysis and recommendations"
  const LoadProfileSummary: string := "Load profile analysis, demand forecasting"

  const TodaySummary: string := "Daily energy usage, peak load analysis, voltage stability report"
  const MonthlySummary: string := "Monthly energy report with cost analysis"

  /** `reports/${dateStr}_${reportType.toLowerCase()}.pdf`. */
  function FilePath(date: string, reportType: string): (p: string)
    ensures |p| == |date| + |reportType| + 13
    ensures p[..8] == "reports/" && p[8..8 + |date|] == date && p[|p| - 4..] == ".pdf"
  {
    "reports/" + date + "_" + Lower(reportType) + ".pdf"
  }

  /**
   * What the loop promises about the report for `i` days back, dated `date`: today's report is
   * the daily one still processing; positive multiples of seven are weekly reports naming their
   * date; day thirteen is the monthly one; every other day is daily with a rotating summary.
   */
  ghost predicate Classified(r: SeedReport, i: nat, date: string)
  {
    && r.date == date
    && r.filePath == FilePath(date, r.reportType)
    && (i == 0 ==> r.reportType == "Daily" && r.status == "Processing" && r.summary == TodaySummary)
    && (i > 0 ==> r.status == "Generated")
    && (i > 0 && i % 7 == 0 ==> r.reportType == "Weekly" && r.summary == "Weekly energy report (" + date + ")")
    && (i > 0 && i % 7 != 0 && i == 13 ==> r.reportType == "Monthly" && r.summary == MonthlySummary)
    && (i > 0 && i % 7 != 0 && i != 13 ==> r.reportType == "Daily" && r.summary == Summaries[i % |Summaries|])
  }

  /** The body of the loop for the report `i` days back, dated `date`: the `if` chain, then the row it pushes. */
  function ReportOf(i: nat, date: string): (r: SeedReport)
  {
    var (reportType, summary, status) :=
      if i == 0 then ("Daily", TodaySummary, "Processing")
      else if i % 7 == 0 then ("Weekly", "Weekly energy report (" + date + ")", "Generated")
      else if i == 13 then ("Monthly", MonthlySummary, "Generated")
      else ("Daily", Summaries[i % |Summaries|], "Generated");
    SeedReport(date, summary, reportType, status, FilePath(date, reportType))
  }

  /** The report the loop body builds is the one `Classified` describes. */
  lemma ReportOfClassified(i: nat, date: string)
    ensures Classified(ReportOf(i, date), i, date)
  {
  }

  /** The `for` loop of lines 23-63, with `dateOf(i)` for the date `i` days before today. */
  method SampleReports(dateOf: nat -> string) returns (reports: seq<SeedReport>)
    ensures |reports| == Days
    ensures forall i :: 0 <= i < Days ==> Classified(reports[i], i, dateOf(i))
  {
    reports := [];
    for i := 0 to Days
      invariant |reports| == i
      invariant forall j :: 0 <= j < i ==> reports[j] == ReportOf(j, dateOf(j))
    {
      var earlier := reports;
      reports := reports + [ReportOf(i, dateOf(i))];
      assert forall j :: 0 <= j < i ==> reports[j] == earlier[j];
    }
    forall i | 0 <= i < Days ensures Classified(reports[i], i, dateOf(i)) {
      assert reports[i] == ReportOf(i, dateOf(i));
      ReportOfClassified(i, dateOf(i));
    }
  }

  /**
   * Over the fourteen days: only today's report is processing, the only weekly one is a week
   * back, the only monthly one is thirteen days back, and every type is one of the three.
   */
  lemma SampleReportKinds(reports: seq<SeedReport>, dateOf: nat -> string)
    requires |reports| == Days
    requires forall i :: 0 <= i < Days ==> Classified(reports[i], i, dateOf(i))
    ensures forall i :: 0 <= i < Days ==> (reports[i].status == "Processing" <==> i == 0)
    ensures forall i :: 0 <= i < Days ==> (reports[i].reportType == "Weekly" <==> i == 7)
    ensures forall i :: 0 <= i < Days ==> (reports[i].reportType == "Monthly" <==> i == 13)
    ensures forall i :: 0 <= i < Days ==> reports[i].reportType in {"Daily", "Weekly", "Monthly"}
  {
    forall i | 0 <= i < Days
      ensures (reports[i].status == "Processing" <==> i == 0)
      ensures (reports[i].reportType == "Weekly" <==> i == 7)
      ensures (reports[i].reportType == "Monthly" <==> i == 13)
      ensures reports[i].reportType in {"Daily", "Weekly", "Monthly"}
    {
      assert Classified(reports[i], i, dateOf(i));
      assert i > 0 && i % 7 == 0 <==> i == 7;
    }
  }
}
